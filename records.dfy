/**
 * The downstream records of the warehouse flow: quality-control records
 * with their box lines (models/qc_ribbon.go, models/qc_online.go), outbound
 * hand-overs (models/outbound.go), shipping expeditions
 * (models/expedition.go), complaints (models/complain.go), returns and
 * picking receipts (models/picked_order.go).
 */
module Records {
  import opened Wrappers

  /** A box used in quality control and how many of it the parcel took. */
  datatype BoxLine = BoxLine(boxId: nat, quantity: int)

  /** A QC-ribbon or QC-online record; the tracking number is unique in its table. */
  datatype QcRecord = QcRecord(id: nat, tracking: string, qcBy: Option<nat>, createdAt: int, lines: seq<BoxLine>)

  datatype Outbound = Outbound(
    id: nat,
    tracking: string,
    outboundBy: Option<nat>,
    expedition: string,
    expeditionColor: string,
    expeditionSlug: string,
    createdAt: int)

  /** A shipping expedition; its code is the tracking-number prefix that identifies it. */
  datatype Expedition = Expedition(id: nat, code: string, name: string, slug: string, color: string)

  /** A product and a quantity: a complaint's product line or a return's line. */
  datatype ProductLine = ProductLine(productId: nat, quantity: int)

  /** An operator a complaint is charged against, and the fee charged. */
  datatype OperatorFee = OperatorFee(operatorId: nat, feeCharge: nat)

  datatype Complaint = Complaint(
    id: nat,
    code: string,
    tracking: string,
    orderGineeId: string,
    channelId: nat,
    storeId: nat,
    description: string,
    solution: string,
    totalFee: nat,
    checked: bool,
    createdBy: nat,
    products: seq<ProductLine>,
    operators: seq<OperatorFee>)

  datatype Return = Return(
    id: nat,
    newTracking: string,
    oldTracking: string,
    returnType: string,
    channelId: nat,
    storeId: nat,
    reason: string,
    orderGineeId: string,
    createdBy: nat,
    returnNumber: Option<string>,
    scrapNumber: Option<string>,
    updatedBy: Option<nat>,
    lines: seq<ProductLine>)

  /** The receipt written when a picker completes an order. */
  datatype PickedOrder = PickedOrder(orderId: nat, pickerId: nat)
}
