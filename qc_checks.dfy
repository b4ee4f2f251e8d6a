/**
 * What the two quality-control handlers share
 * (controllers/qc_online_controller.go, controllers/qc_ribbon_controller.go):
 * the QC tables' constraints and the validation of the box lines of a
 * request, which walks the lines in order and stops at the first bad one.
 */
module QcChecks {
  import opened Wrappers
  import opened Records

  /** A QC table: tracking numbers unique, ids distinct and below the next key. */
  predicate QcRecordsValid(rows: seq<QcRecord>, next: nat) {
    (forall i :: 0 <= i < |rows| ==> rows[i].id < next)
    && forall i, j :: 0 <= i < j < |rows| ==> rows[i].id != rows[j].id && rows[i].tracking != rows[j].tracking
  }

  /** The box lines a QC record may hold: no box twice, every box known, every quantity positive. */
  predicate BoxesAcceptable(lines: seq<BoxLine>, boxes: seq<nat>) {
    (forall i, j :: 0 <= i < j < |lines| ==> lines[i].boxId != lines[j].boxId)
    && forall i :: 0 <= i < |lines| ==> lines[i].boxId in boxes && lines[i].quantity > 0
  }

  /** The first complaint about `lines`, given the box ids `seen` on earlier lines. */
  function BoxErrorFrom(lines: seq<BoxLine>, boxes: seq<nat>, seen: set<nat>): Option<Error>
    decreases |lines|
  {
    if lines == [] then None
    else if lines[0].boxId in seen then Some(BadRequest("duplicate box ID"))
    else if lines[0].boxId !in boxes then Some(BadRequest("box not found"))
    else if lines[0].quantity <= 0 then Some(BadRequest("invalid quantity"))
    else BoxErrorFrom(lines[1..], boxes, seen + {lines[0].boxId})
  }

  function BoxError(lines: seq<BoxLine>, boxes: seq<nat>): Option<Error> {
    BoxErrorFrom(lines, boxes, {})
  }

  lemma {:induction false} BoxErrorFromMeaning(lines: seq<BoxLine>, boxes: seq<nat>, seen: set<nat>)
    ensures BoxErrorFrom(lines, boxes, seen).None? <==>
              BoxesAcceptable(lines, boxes) && forall i :: 0 <= i < |lines| ==> lines[i].boxId !in seen
    decreases |lines|
  {
    if lines != [] {
      var rest := lines[1..];
      BoxErrorFromMeaning(rest, boxes, seen + {lines[0].boxId});
      assert forall i :: 1 <= i < |lines| ==> lines[i] == rest[i - 1];
      if BoxesAcceptable(lines, boxes) && (forall i :: 0 <= i < |lines| ==> lines[i].boxId !in seen) {
        assert forall i :: 0 <= i < |rest| ==> rest[i].boxId != lines[0].boxId by {
          forall i | 0 <= i < |rest| ensures rest[i].boxId != lines[0].boxId {
            assert rest[i] == lines[i + 1];
          }
        }
      }
      if BoxErrorFrom(lines, boxes, seen).None? {
        assert forall i, j :: 0 <= i < j < |lines| ==> lines[i].boxId != lines[j].boxId by {
          forall i, j | 0 <= i < j < |lines| ensures lines[i].boxId != lines[j].boxId {
            if i > 0 {
              assert lines[i] == rest[i - 1] && lines[j] == rest[j - 1];
            } else {
              assert lines[j] == rest[j - 1];
            }
          }
        }
      }
    }
  }

  /** The validation accepts exactly the acceptable box lines. */
  lemma BoxErrorMeaning(lines: seq<BoxLine>, boxes: seq<nat>)
    ensures BoxError(lines, boxes).None? <==> BoxesAcceptable(lines, boxes)
  {
    BoxErrorFromMeaning(lines, boxes, {});
  }

  /** The validation loop: `seen` is the map of box ids met so far; the first bad line ends it. */
  method ValidateBoxes(lines: seq<BoxLine>, boxes: seq<nat>) returns (e: Option<Error>)
    ensures e == BoxError(lines, boxes)
  {
    var seen: set<nat> := {};
    var i := 0;
    while i < |lines|
      invariant 0 <= i <= |lines|
      invariant BoxErrorFrom(lines[i..], boxes, seen) == BoxError(lines, boxes)
    {
      assert lines[i..][0] == lines[i] && lines[i..][1..] == lines[i + 1..];
      var line := lines[i];
      if line.boxId in seen {
        return Some(BadRequest("duplicate box ID"));
      }
      seen := seen + {line.boxId};
      if line.boxId !in boxes {
        return Some(BadRequest("box not found"));
      }
      if line.quantity <= 0 {
        return Some(BadRequest("invalid quantity"));
      }
      i := i + 1;
    }
    return None;
  }

  /** A repeated box is refused wherever it repeats, unless an earlier line fails first. */
  lemma RepeatedBoxIsRefused(lines: seq<BoxLine>, boxes: seq<nat>, i: nat, j: nat)
    requires i < j < |lines| && lines[i].boxId == lines[j].boxId
    ensures BoxError(lines, boxes).Some?
  {
    BoxErrorMeaning(lines, boxes);
  }

  /** Appending a record whose tracking number is not in the table keeps a QC table valid. */
  lemma AppendKeepsQcValid(rows: seq<QcRecord>, next: nat, q: QcRecord)
    requires QcRecordsValid(rows, next) && q.id == next
    requires forall i :: 0 <= i < |rows| ==> rows[i].tracking != q.tracking
    ensures QcRecordsValid(rows + [q], next + 1)
  {}
}
