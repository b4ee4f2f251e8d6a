/**
 * Outbound hand-over (controllers/outbound_controller.go): an outbound is
 * created for a normalised tracking number that has an order and a QC record
 * and no outbound yet, and it is labelled with the expedition its tracking
 * number belongs to. Manually labelled ("TKP0") outbounds may be relabelled.
 */
module OutboundController {
  import opened Wrappers
  import opened Text
  import opened Records
  import opened Store
  import Tables

  /** Tracking numbers with this prefix carry a label typed by the operator. */
  const ManualPrefix := "TKP0"

  /** The outbounds table: tracking numbers unique, ids distinct and below the next key. */
  predicate OutboundsValid(rows: seq<Outbound>, next: nat) {
    (forall i :: 0 <= i < |rows| ==> rows[i].id < next)
    && forall i, j :: 0 <= i < j < |rows| ==> rows[i].id != rows[j].id && rows[i].tracking != rows[j].tracking
  }

  datatype OutboundRequest = OutboundRequest(tracking: string, expedition: string, expeditionColor: string, expeditionSlug: string)

  /** What an outbound says about its expedition: name, colour and slug. */
  datatype Label = Label(expedition: string, color: string, slug: string)

  predicate Manual(t: string) {
    HasPrefix(t, ManualPrefix)
  }

  /** The expedition listed first whose code starts `t`. */
  function Detected(exps: seq<Expedition>, t: string): (r: Option<nat>)
    ensures r.Some? ==> r.value < |exps| && HasPrefix(t, exps[r.value].code)
                        && forall j :: 0 <= j < r.value ==> !HasPrefix(t, exps[j].code)
    ensures r.None? <==> forall j :: 0 <= j < |exps| ==> !HasPrefix(t, exps[j].code)
  {
    Tables.Find(exps, (e: Expedition) => HasPrefix(t, e.code))
  }

  /** The detection loop: walks the expeditions in listing order and stops at the first whose code starts `t`. */
  method DetectExpedition(exps: seq<Expedition>, t: string) returns (found: Option<nat>)
    ensures found == Detected(exps, t)
  {
    found := None;
    var i := 0;
    while i < |exps|
      invariant 0 <= i <= |exps|
      invariant found.None?
      invariant forall j :: 0 <= j < i ==> !HasPrefix(t, exps[j].code)
    {
      var code := exps[i].code;
      if |t| >= |code| && t[..|code|] == code {
        found := Some(i);
        break;
      }
      i := i + 1;
    }
    if found.Some? {
      FirstMatchIsUnique(exps, t, found.value, Detected(exps, t).value);
    }
  }

  /** Two first matches are the same expedition. */
  lemma FirstMatchIsUnique(exps: seq<Expedition>, t: string, a: nat, b: nat)
    requires a < |exps| && HasPrefix(t, exps[a].code) && forall j :: 0 <= j < a ==> !HasPrefix(t, exps[j].code)
    requires b < |exps| && HasPrefix(t, exps[b].code) && forall j :: 0 <= j < b ==> !HasPrefix(t, exps[j].code)
    ensures a == b
  {
    assert !(a < b) && !(b < a);
  }

  /** The label of a new outbound: typed for a manual tracking number, else the detected expedition's. */
  function LabelFor(exps: seq<Expedition>, t: string, req: OutboundRequest): (r: Result<Label>)
    ensures Manual(t) ==> r == Ok(Label(req.expedition, req.expeditionColor, req.expeditionSlug))
    ensures !Manual(t) ==> (r.Ok? <==> exists j :: 0 <= j < |exps| && HasPrefix(t, exps[j].code))
    ensures !Manual(t) && r.Ok? ==>
      exists j :: 0 <= j < |exps| && HasPrefix(t, exps[j].code) && (forall i :: 0 <= i < j ==> !HasPrefix(t, exps[i].code))
                  && r.value == Label(exps[j].name, exps[j].color, exps[j].slug)
    ensures r.Err? ==> r == Err(BadRequest("invalid tracking code"))
  {
    if Manual(t) then Ok(Label(req.expedition, req.expeditionColor, req.expeditionSlug))
    else match Detected(exps, t)
      case None => Err(BadRequest("invalid tracking code"))
      case Some(j) => Ok(Label(exps[j].name, exps[j].color, exps[j].slug))
  }

  /** The labelling step of `CreateOutbound`: the manual-prefix test, else the detection loop. */
  method ChooseLabel(exps: seq<Expedition>, t: string, req: OutboundRequest) returns (r: Result<Label>)
    ensures r == LabelFor(exps, t, req)
  {
    if |t| >= 4 && t[..4] == ManualPrefix {
      return Ok(Label(req.expedition, req.expeditionColor, req.expeditionSlug));
    }
    var found := DetectExpedition(exps, t);
    if found.None? {
      return Err(BadRequest("invalid tracking code"));
    }
    var e := exps[found.value];
    r := Ok(Label(e.name, e.color, e.slug));
  }

  /**
   * What `CreateOutbound` answers: the order, the QC record and the
   * outbound are looked up by the normalised tracking number, then the
   * label is chosen.
   */
  function CreateOutcome(orders: seq<OrderModel.Order>, qcRibbons: seq<QcRecord>, qcOnlines: seq<QcRecord>,
                         outbounds: seq<Outbound>, exps: seq<Expedition>, next: nat,
                         req: OutboundRequest, actor: nat, now: int): (r: Result<Outbound>)
  {
    var t := Normalize(req.tracking);
    if OrderByTracking(orders, t).None? then Err(NotFound("order"))
    else if QcByTracking(qcRibbons, t).None? && QcByTracking(qcOnlines, t).None? then Err(BadRequest("QC process required"))
    else if OutboundByTracking(outbounds, t).Some? then Err(BadRequest("tracking already exists"))
    else match LabelFor(exps, t, req)
      case Err(e) => Err(e)
      case Ok(l) => Ok(Outbound(next, t, Some(actor), l.expedition, l.color, l.slug, now))
  }

  /**
   * The checks of `CreateOutbound` run in the source's order, the first
   * failure wins, and only a request that passes them all yields a record,
   * which carries the normalised tracking number, the actor and the label.
   */
  lemma CreateChecksInOrder(orders: seq<OrderModel.Order>, qcRibbons: seq<QcRecord>, qcOnlines: seq<QcRecord>,
                            outbounds: seq<Outbound>, exps: seq<Expedition>, next: nat,
                            req: OutboundRequest, actor: nat, now: int)
    ensures var t := Normalize(req.tracking); var r := CreateOutcome(orders, qcRibbons, qcOnlines, outbounds, exps, next, req, actor, now);
      (OrderByTracking(orders, t).None? ==> r == Err(NotFound("order")))
      && ((OrderByTracking(orders, t).Some? && QcByTracking(qcRibbons, t).None? && QcByTracking(qcOnlines, t).None?)
            ==> r == Err(BadRequest("QC process required")))
      && (r.Ok? <==> OrderByTracking(orders, t).Some?
                     && (QcByTracking(qcRibbons, t).Some? || QcByTracking(qcOnlines, t).Some?)
                     && OutboundByTracking(outbounds, t).None? && LabelFor(exps, t, req).Ok?)
      && (r.Ok? ==> r.value.id == next && r.value.tracking == t && r.value.outboundBy == Some(actor)
                    && r.value.createdAt == now
                    && LabelFor(exps, t, req) == Ok(Label(r.value.expedition, r.value.expeditionColor, r.value.expeditionSlug)))
  {}

  /** `CreateOutbound` (route without a role gate): the record is written only when every check passes. */
  method CreateOutbound(db: Database, req: OutboundRequest, actor: nat, now: int) returns (r: Result<Outbound>)
    requires db.Valid() && OutboundsValid(db.outbounds, db.nextId)
    modifies db`outbounds, db`nextId
    ensures db.Valid() && OutboundsValid(db.outbounds, db.nextId)
    ensures r == CreateOutcome(db.orders, db.qcRibbons, db.qcOnlines, old(db.outbounds), db.expeditions, old(db.nextId),
                               req, actor, now)
    ensures r.Ok? ==> db.outbounds == old(db.outbounds) + [r.value] && db.nextId == old(db.nextId) + 1
    ensures r.Err? ==> db.outbounds == old(db.outbounds) && db.nextId == old(db.nextId)
  {
    var t := Normalize(req.tracking);
    if OrderByTracking(db.orders, t).None? {
      return Err(NotFound("order"));
    }
    if QcByTracking(db.qcRibbons, t).None? && QcByTracking(db.qcOnlines, t).None? {
      return Err(BadRequest("QC process required"));
    }
    if OutboundByTracking(db.outbounds, t).Some? {
      return Err(BadRequest("tracking already exists"));
    }
    var chosen := ChooseLabel(db.expeditions, t, req);
    if chosen.Err? {
      return Err(chosen.error);
    }
    var l := chosen.value;
    r := Ok(Outbound(db.nextId, t, Some(actor), l.expedition, l.color, l.slug, now));
    assert r == CreateOutcome(db.orders, db.qcRibbons, db.qcOnlines, db.outbounds, db.expeditions, db.nextId, req, actor, now);
    CreatedOutboundIsNew(db.orders, db.qcRibbons, db.qcOnlines, db.outbounds, db.expeditions, db.nextId, req, actor, now);
    Append(db, r.value);
  }

  /** The insert: the new row takes the next key. */
  method Append(db: Database, o: Outbound)
    requires db.Valid() && OutboundsValid(db.outbounds + [o], db.nextId + 1)
    modifies db`outbounds, db`nextId
    ensures db.Valid() && OutboundsValid(db.outbounds, db.nextId)
    ensures db.outbounds == old(db.outbounds) + [o] && db.nextId == old(db.nextId) + 1
  {
    OrdersValidAbove(db.orders, db.nextId, db.nextId + 1);
    UsersValidAbove(db.users, db.nextId, db.nextId + 1);
    db.outbounds := db.outbounds + [o];
    db.nextId := db.nextId + 1;
  }

  /** A code that starts a code listed after it shadows it: the later expedition is never detected. */
  lemma ShadowedExpeditionIsNeverDetected(exps: seq<Expedition>, i: nat, j: nat, t: string)
    requires i < j < |exps| && HasPrefix(exps[j].code, exps[i].code)
    ensures Detected(exps, t) != Some(j)
  {
    if HasPrefix(t, exps[j].code) {
      PrefixIsTransitive(t, exps[j].code, exps[i].code);
    }
  }

  lemma PrefixIsTransitive(s: string, p: string, q: string)
    requires HasPrefix(s, p) && HasPrefix(p, q)
    ensures HasPrefix(s, q)
  {
    assert s[..|q|] == s[..|p|][..|q|];
  }

  /** Adding expeditions to the end of the list never changes a successful detection. */
  lemma DetectionIgnoresLaterExpeditions(exps: seq<Expedition>, more: seq<Expedition>, t: string)
    requires Detected(exps, t).Some?
    ensures Detected(exps + more, t) == Detected(exps, t)
  {
    var k := Detected(exps, t).value;
    assert (exps + more)[k] == exps[k];
    assert forall j :: 0 <= j < k ==> (exps + more)[j] == exps[j];
    FirstMatchIsUnique(exps + more, t, k, Detected(exps + more, t).value);
  }

  /** A tracking number typed with a lower-case "tkp0" is still labelled by hand, because it is normalised first. */
  lemma ManualPrefixIgnoresCase(s: string)
    requires |s| >= 4 && ToUpper(s[..4]) == ManualPrefix
    ensures Manual(Normalize(s))
  {
    assert !IsSpace(s[0]) && !IsSpace(s[3]) by {
      assert ToUpper(s[..4])[0] == UpperChar(s[0]) && ToUpper(s[..4])[3] == UpperChar(s[3]);
    }
    var trimmed := TrimSpace(s);
    var i, j :| 0 <= i <= j <= |s| && trimmed == s[i..j]
                && (forall k :: 0 <= k < i ==> IsSpace(s[k])) && (forall k :: j <= k < |s| ==> IsSpace(s[k]));
    assert i == 0 && j >= 4;
    var n := Normalize(s);
    assert forall k :: 0 <= k < 4 ==> n[k] == UpperChar(s[k]) == ToUpper(s[..4])[k];
    assert n[..4] == ManualPrefix;
  }

  /** A created outbound carries a tracking number nobody else's outbound has, in its normalised form. */
  lemma CreatedOutboundIsNew(orders: seq<OrderModel.Order>, qcRibbons: seq<QcRecord>, qcOnlines: seq<QcRecord>,
                             outbounds: seq<Outbound>, exps: seq<Expedition>, next: nat,
                             req: OutboundRequest, actor: nat, now: int)
    requires OutboundsValid(outbounds, next)
    requires CreateOutcome(orders, qcRibbons, qcOnlines, outbounds, exps, next, req, actor, now).Ok?
    ensures var o := CreateOutcome(orders, qcRibbons, qcOnlines, outbounds, exps, next, req, actor, now).value;
      OutboundsValid(outbounds + [o], next + 1) && Normalize(o.tracking) == o.tracking
  {
    var t := Normalize(req.tracking);
    CreateChecksInOrder(orders, qcRibbons, qcOnlines, outbounds, exps, next, req, actor, now);
    var o := CreateOutcome(orders, qcRibbons, qcOnlines, outbounds, exps, next, req, actor, now).value;
    assert o.tracking == t && o.id == next;
    assert forall i :: 0 <= i < |outbounds| ==> outbounds[i].tracking != t;
    NormalizeIdempotent(req.tracking);
  }

  /** `UpdateOutbound`: only a manually labelled outbound is relabelled, and only its label changes. */
  function Relabel(o: Outbound, l: Label): (r: Result<Outbound>)
    ensures r.Ok? <==> Manual(o.tracking)
    ensures r.Err? ==> r == Err(Forbidden("update not allowed"))
    ensures r.Ok? ==> r.value.expedition == l.expedition && r.value.expeditionColor == l.color
                      && r.value.expeditionSlug == l.slug
                      && r.value.(expedition := o.expedition, expeditionColor := o.expeditionColor,
                                  expeditionSlug := o.expeditionSlug) == o
  {
    if |o.tracking| < 4 || o.tracking[..4] != ManualPrefix then Err(Forbidden("update not allowed"))
    else Ok(o.(expedition := l.expedition, expeditionColor := l.color, expeditionSlug := l.slug))
  }

  function OutboundById(rows: seq<Outbound>, id: nat): Option<nat> {
    Tables.Find(rows, (b: Outbound) => b.id == id)
  }

  /** `UpdateOutbound` (route without a role gate). */
  method UpdateOutbound(db: Database, id: nat, l: Label) returns (r: Result<Outbound>)
    requires OutboundsValid(db.outbounds, db.nextId)
    modifies db`outbounds
    ensures OutboundsValid(db.outbounds, db.nextId)
    ensures OutboundById(old(db.outbounds), id).None? ==> r == Err(NotFound("outbound")) && db.outbounds == old(db.outbounds)
    ensures OutboundById(old(db.outbounds), id).Some? ==> var k := OutboundById(old(db.outbounds), id).value;
      r == Relabel(old(db.outbounds)[k], l)
      && db.outbounds == if r.Ok? then old(db.outbounds)[k := r.value] else old(db.outbounds)
  {
    var found := OutboundById(db.outbounds, id);
    if found.None? {
      return Err(NotFound("outbound"));
    }
    var k := found.value;
    r := Relabel(db.outbounds[k], l);
    if r.Ok? {
      db.outbounds := db.outbounds[k := r.value];
    }
  }

  /** A manually labelled outbound relabelled twice keeps only the second label. */
  lemma RelabelLastWins(o: Outbound, l1: Label, l2: Label)
    requires Manual(o.tracking)
    ensures Relabel(Relabel(o, l1).value, l2) == Relabel(o, l2)
  {}
}
