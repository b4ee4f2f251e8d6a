/**
 * Expeditions (controllers/expedition_controller.go): the shipping
 * companies an outbound is labelled with. Creation normalises the code and
 * the slug and refuses a code in use; an update refuses a code another
 * expedition holds and stores what it is given as is.
 */
module ExpeditionController {
  import opened Wrappers
  import opened Text
  import opened Records
  import opened Store
  import OutboundController
  import Tables

  /** The expeditions table: codes unique, ids distinct and below the next key. */
  predicate ExpeditionsValid(rows: seq<Expedition>, next: nat) {
    (forall i :: 0 <= i < |rows| ==> rows[i].id < next)
    && forall i, j :: 0 <= i < j < |rows| ==> rows[i].id != rows[j].id && rows[i].code != rows[j].code
  }

  datatype ExpeditionRequest = ExpeditionRequest(code: string, name: string, slug: string, color: string)

  function ExpeditionById(rows: seq<Expedition>, id: nat): Option<nat> {
    Tables.Find(rows, (e: Expedition) => e.id == id)
  }

  predicate CodeInUse(rows: seq<Expedition>, code: string) {
    exists i :: 0 <= i < |rows| && rows[i].code == code
  }

  /** The slug as stored on creation: trimmed and lower-cased. */
  function SlugOf(s: string): string {
    ToLower(TrimSpace(s))
  }

  /** `CreateExpedition` (route without a role gate): the normalised code must be free. */
  function CreateOutcome(rows: seq<Expedition>, next: nat, req: ExpeditionRequest): (r: Result<Expedition>)
    ensures r.Ok? <==> !CodeInUse(rows, Normalize(req.code))
    ensures r.Err? ==> r == Err(BadRequest("expedition code already exists"))
    ensures r.Ok? ==> r.value == Expedition(next, Normalize(req.code), req.name, SlugOf(req.slug), req.color)
  {
    var code := Normalize(req.code);
    if exists i :: 0 <= i < |rows| && rows[i].code == code then Err(BadRequest("expedition code already exists"))
    else Ok(Expedition(next, code, req.name, SlugOf(req.slug), req.color))
  }

  /**
   * A created expedition's code is already normalised, so a code typed in
   * any case or with surrounding blanks is refused once it exists.
   */
  lemma CreatedCodeIsNormalised(rows: seq<Expedition>, next: nat, req: ExpeditionRequest, again: ExpeditionRequest)
    requires CreateOutcome(rows, next, req).Ok?
    requires Normalize(again.code) == Normalize(req.code)
    ensures var e := CreateOutcome(rows, next, req).value;
      Normalize(e.code) == e.code
      && CreateOutcome(rows + [e], next + 1, again) == Err(BadRequest("expedition code already exists"))
  {
    var e := CreateOutcome(rows, next, req).value;
    NormalizeIdempotent(req.code);
    assert (rows + [e])[|rows|].code == Normalize(again.code);
  }

  method CreateExpedition(db: Database, req: ExpeditionRequest) returns (r: Result<Expedition>)
    requires db.Valid() && ExpeditionsValid(db.expeditions, db.nextId)
    modifies db`expeditions, db`nextId
    ensures db.Valid() && ExpeditionsValid(db.expeditions, db.nextId)
    ensures r == CreateOutcome(old(db.expeditions), old(db.nextId), req)
    ensures r.Ok? ==> db.expeditions == old(db.expeditions) + [r.value] && db.nextId == old(db.nextId) + 1
    ensures r.Err? ==> db.expeditions == old(db.expeditions) && db.nextId == old(db.nextId)
  {
    var code := Normalize(req.code);
    var slug := SlugOf(req.slug);
    if exists i :: 0 <= i < |db.expeditions| && db.expeditions[i].code == code {
      return Err(BadRequest("expedition code already exists"));
    }
    r := Ok(Expedition(db.nextId, code, req.name, slug, req.color));
    OrdersValidAbove(db.orders, db.nextId, db.nextId + 1);
    UsersValidAbove(db.users, db.nextId, db.nextId + 1);
    db.expeditions := db.expeditions + [r.value];
    db.nextId := db.nextId + 1;
  }

  /** `UpdateExpedition` on a found expedition: a code held by another expedition is refused; the fields are stored as given. */
  function UpdateOutcome(rows: seq<Expedition>, e: Expedition, req: ExpeditionRequest): (r: Result<Expedition>)
    ensures r.Ok? <==> forall i :: 0 <= i < |rows| && rows[i].id != e.id ==> rows[i].code != req.code
    ensures r.Err? ==> r == Err(BadRequest("expedition code already exists"))
    ensures r.Ok? ==> r.value == Expedition(e.id, req.code, req.name, req.slug, req.color)
  {
    if exists i :: 0 <= i < |rows| && rows[i].id != e.id && rows[i].code == req.code then
      Err(BadRequest("expedition code already exists"))
    else Ok(Expedition(e.id, req.code, req.name, req.slug, req.color))
  }

  method UpdateExpedition(db: Database, id: nat, req: ExpeditionRequest) returns (r: Result<Expedition>)
    requires ExpeditionsValid(db.expeditions, db.nextId)
    modifies db`expeditions
    ensures ExpeditionsValid(db.expeditions, db.nextId)
    ensures ExpeditionById(old(db.expeditions), id).None? ==>
              r == Err(NotFound("expedition")) && db.expeditions == old(db.expeditions)
    ensures ExpeditionById(old(db.expeditions), id).Some? ==> var k := ExpeditionById(old(db.expeditions), id).value;
      r == UpdateOutcome(old(db.expeditions), old(db.expeditions)[k], req)
      && db.expeditions == if r.Ok? then old(db.expeditions)[k := r.value] else old(db.expeditions)
  {
    var found := ExpeditionById(db.expeditions, id);
    if found.None? {
      return Err(NotFound("expedition"));
    }
    var k := found.value;
    var e := db.expeditions[k];
    if exists i :: 0 <= i < |db.expeditions| && db.expeditions[i].id != e.id && db.expeditions[i].code == req.code {
      return Err(BadRequest("expedition code already exists"));
    }
    r := Ok(Expedition(e.id, req.code, req.name, req.slug, req.color));
    db.expeditions := db.expeditions[k := r.value];
  }

  /** An expedition may keep its own code: in a valid table no other row holds it. */
  lemma UpdateMayKeepOwnCode(rows: seq<Expedition>, next: nat, k: nat, req: ExpeditionRequest)
    requires ExpeditionsValid(rows, next) && k < |rows| && req.code == rows[k].code
    ensures UpdateOutcome(rows, rows[k], req).Ok?
  {
    forall i | 0 <= i < |rows| && rows[i].id != rows[k].id ensures rows[i].code != req.code {
      assert i != k;
      assert i < k || k < i;
    }
  }

  /**
   * An update stores its code as typed, so a code updated to hold a
   * lower-case letter is never detected for any tracking number, which is
   * normalised before detection.
   */
  lemma LowerCaseCodeIsNeverDetected(rows: seq<Expedition>, e: Expedition, req: ExpeditionRequest, m: nat, raw: string)
    requires UpdateOutcome(rows, e, req).Ok?
    requires m < |req.code| && IsLowerAscii(req.code[m])
    ensures !HasPrefix(Normalize(raw), UpdateOutcome(rows, e, req).value.code)
  {
    LowerCasePrefixNeverMatches(raw, req.code, m);
  }

  /** A code that is blank once trimmed is stored empty, and an empty code is a prefix of every tracking number. */
  lemma BlankCodeMatchesEverything(rows: seq<Expedition>, next: nat, req: ExpeditionRequest, t: string)
    requires CreateOutcome(rows, next, req).Ok? && forall i :: 0 <= i < |req.code| ==> IsSpace(req.code[i])
    ensures HasPrefix(t, CreateOutcome(rows, next, req).value.code)
  {
    assert TrimSpace(req.code) == [];
  }
}
