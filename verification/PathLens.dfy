/**
  Patching a JSON document at paths: reading, setting and unsetting, where a
  segment is an object key or an array index and missing containers are made
  on the way.
 */
module PathLens {
  import opened Basics

  /** A document; an array slot that was skipped over is a hole. */
  datatype Node = Leaf(text: string) | Object(fields: Dict<Node>) | Array(items: seq<Option<Node>>)

  datatype PathError = BadIndex

  const MAX_ARRAY_INDEX := 100_000

  predicate Container(n: Node) {
    !n.Leaf?
  }

  predicate Digits(s: string) {
    s != "" && forall i | 0 <= i < |s| :: '0' <= s[i] <= '9'
  }

  function Number(s: string): nat
    requires forall i | 0 <= i < |s| :: '0' <= s[i] <= '9'
  {
    if s == "" then 0 else 10 * Number(s[..|s| - 1]) + (s[|s| - 1] as int - '0' as int)
  }

  /** isArrayIndex: decimal without leading zeros, within the bound. */
  function IndexOf(segment: string): Option<nat> {
    if Digits(segment) && (segment[0] != '0' || |segment| == 1) && Number(segment) <= MAX_ARRAY_INDEX
    then Some(Number(segment)) else None
  }

  /** The child under a segment; a key or slot that does not exist has none. */
  function Child(n: Node, segment: string): Result<Option<Node>, PathError>
    requires Container(n)
  {
    match n
    case Object(fields) => Success(if Has(fields, segment) then Some(Get(fields, segment)) else None)
    case Array(items) =>
      var i := IndexOf(segment);
      if i.None? then Failure(BadIndex) else Success(if i.value < |items| then items[i.value] else None)
  }

  function Holes(n: nat): (r: seq<Option<Node>>)
    ensures |r| == n && forall i | 0 <= i < n :: r[i] == None
  {
    seq(n, _ => None)
  }

  /** Assignment to a slot; beyond the end it leaves holes. */
  function PutItem(items: seq<Option<Node>>, i: nat, v: Node): seq<Option<Node>> {
    if i < |items| then items[i := Some(v)] else items + Holes(i - |items|) + [Some(v)]
  }

  function WriteChild(n: Node, segment: string, v: Node): Result<Node, PathError>
    requires Container(n)
  {
    match n
    case Object(fields) => Success(Object(Put(fields, segment, v)))
    case Array(items) =>
      var i := IndexOf(segment);
      if i.None? then Failure(BadIndex) else Success(Array(PutItem(items, i.value, v)))
  }

  /** The container that a missing child becomes. */
  function Fresh(next: string): Node {
    if IndexOf(next).Some? then Array([]) else Object([])
  }

  /** The container below a segment, made if need be for the segment after it. */
  function Descend(n: Node, segment: string, next: string): (r: Result<Node, PathError>)
    requires Container(n)
    ensures r.Success? ==> Container(r.value)
  {
    var child :- Child(n, segment);
    Success(if child.Some? && Container(child.value) then child.value else Fresh(next))
  }

  /** setAtPath. */
  function Set(n: Node, path: seq<string>, v: Node): (r: Result<Node, PathError>)
    requires Container(n) && path != []
    ensures r.Success? ==> Container(r.value)
    decreases |path|
  {
    if |path| == 1 then WriteChild(n, path[0], v)
    else
      var child :- Descend(n, path[0], path[1]);
      var below :- Set(child, path[1..], v);
      WriteChild(n, path[0], below)
  }

  /** readAtPath. */
  function Read(n: Node, path: seq<string>): Result<Option<Node>, PathError>
    decreases |path|
  {
    if path == [] then Success(Some(n))
    else if !Container(n) then Success(None)
    else
      var child :- Child(n, path[0]);
      if child.None? then Success(None) else Read(child.value, path[1..])
  }

  /** Deleting a key, or cutting a slot out of an array. */
  function DropChild(n: Node, segment: string): Result<Node, PathError>
    requires Container(n)
  {
    match n
    case Object(fields) => Success(Object(Remove(fields, segment)))
    case Array(items) =>
      var i := IndexOf(segment);
      if i.None? then Failure(BadIndex)
      else Success(if i.value < |items| then Array(items[..i.value] + items[i.value + 1..]) else n)
  }

  /** unsetAtPath: a path that leads nowhere changes nothing. */
  function Unset(n: Node, path: seq<string>): Result<Node, PathError>
    requires path != []
    decreases |path|
  {
    if !Container(n) then Success(n)
    else if |path| == 1 then DropChild(n, path[0])
    else
      var child :- Child(n, path[0]);
      if child.None? || !Container(child.value) then Success(n)
      else
        var below :- Unset(child.value, path[1..]);
        WriteChild(n, path[0], below)
  }

  // ----- With a cursor -----

  method ReadAtPath(document: Node, path: seq<string>) returns (r: Result<Option<Node>, PathError>)
    ensures r == Read(document, path)
  {
    var cursor := document;
    for i := 0 to |path|
      invariant Read(cursor, path[i..]) == Read(document, path)
    {
      assert path[i..][0] == path[i] && path[i..][1..] == path[i + 1..];
      if !Container(cursor) {
        return Success(None);
      }
      var child :- Child(cursor, path[i]);
      if child.None? {
        return Success(None);
      }
      cursor := child.value;
    }
    return Success(Some(cursor));
  }

  /** Writes a result back into the containers above it. */
  function WriteBack(above: seq<Node>, path: seq<string>, r: Result<Node, PathError>): Result<Node, PathError>
    requires |above| <= |path| && forall i | 0 <= i < |above| :: Container(above[i])
  {
    if above == [] || r.Failure? then r
    else
      var k := |above| - 1;
      WriteBack(above[..k], path, WriteChild(above[k], path[k], r.value))
  }

  lemma {:induction false} FailureSurfaces(above: seq<Node>, path: seq<string>, e: PathError)
    requires |above| <= |path| && forall i | 0 <= i < |above| :: Container(above[i])
    ensures WriteBack(above, path, Failure(e)) == Failure(e)
  {
  }

  method SetAtPath(document: Node, path: seq<string>, v: Node) returns (r: Result<Node, PathError>)
    requires Container(document) && path != []
    ensures r == Set(document, path, v)
  {
    var cursor, above: seq<Node> := document, [];
    for i := 0 to |path| - 1
      invariant |above| == i && Container(cursor) && forall k | 0 <= k < i :: Container(above[k])
      invariant WriteBack(above, path, Set(cursor, path[i..], v)) == Set(document, path, v)
    {
      assert path[i..][0] == path[i] && path[i..][1] == path[i + 1] && path[i..][1..] == path[i + 1..];
      var next := Descend(cursor, path[i], path[i + 1]);
      if next.Failure? {
        FailureSurfaces(above, path, next.error);
        return Failure(next.error);
      }
      WriteBackStep(above, cursor, path, Set(next.value, path[i + 1..], v));
      above := above + [cursor];
      cursor := next.value;
    }
    var last := |path| - 1;
    assert path[last..] == [path[last]];
    var written := WriteChild(cursor, path[last], v);
    r := RebuildFrom(above, path, written);
  }

  lemma {:induction false} WriteBackStep(above: seq<Node>, cursor: Node, path: seq<string>, r: Result<Node, PathError>)
    requires |above| < |path| && Container(cursor) && forall i | 0 <= i < |above| :: Container(above[i])
    ensures WriteBack(above + [cursor], path, r)
            == WriteBack(above, path, if r.Failure? then r else WriteChild(cursor, path[|above|], r.value))
  {
    assert (above + [cursor])[..|above|] == above;
  }

  method RebuildFrom(above: seq<Node>, path: seq<string>, start: Result<Node, PathError>) returns (r: Result<Node, PathError>)
    requires |above| <= |path| && forall i | 0 <= i < |above| :: Container(above[i])
    ensures r == WriteBack(above, path, start)
  {
    r := start;
    assert above[..|above|] == above;
    for i := |above| downto 0
      invariant WriteBack(above[..i], path, r) == WriteBack(above, path, start)
    {
      if r.Failure? {
        return;
      }
      assert above[..i + 1][..i] == above[..i];
      r := WriteChild(above[i], path[i], r.value);
    }
  }

  method UnsetAtPath(document: Node, path: seq<string>) returns (r: Result<Node, PathError>)
    requires path != []
    ensures r == Unset(document, path)
  {
    var cursor, above: seq<Node> := document, [];
    for i := 0 to |path| - 1
      invariant |above| == i && forall k | 0 <= k < i :: Container(above[k])
      invariant WriteBack(above, path, Unset(cursor, path[i..])) == Unset(document, path)
    {
      assert path[i..][0] == path[i] && path[i..][1..] == path[i + 1..];
      if !Container(cursor) {
        r := RebuildFrom(above, path, Success(cursor));
        return;
      }
      var child := Child(cursor, path[i]);
      if child.Failure? {
        FailureSurfaces(above, path, child.error);
        return Failure(child.error);
      }
      if child.value.None? || !Container(child.value.value) {
        r := RebuildFrom(above, path, Success(cursor));
        return;
      }
      WriteBackStep(above, cursor, path, Unset(child.value.value, path[i + 1..]));
      above := above + [cursor];
      cursor := child.value.value;
    }
    var last := |path| - 1;
    assert path[last..] == [path[last]];
    var dropped := if Container(cursor) then DropChild(cursor, path[last]) else Success(cursor);
    r := RebuildFrom(above, path, dropped);
  }

  // ----- Patches -----

  datatype Patch = Patch(sets: seq<(seq<string>, Node)>, unsets: seq<seq<string>>)

  predicate ValidPatch(p: Patch) {
    (forall i | 0 <= i < |p.sets| :: p.sets[i].0 != []) && (forall i | 0 <= i < |p.unsets| :: p.unsets[i] != [])
  }

  function ApplySets(n: Node, sets: seq<(seq<string>, Node)>): (r: Result<Node, PathError>)
    requires Container(n) && forall i | 0 <= i < |sets| :: sets[i].0 != []
    ensures r.Success? ==> Container(r.value)
  {
    if sets == [] then Success(n)
    else
      var before :- ApplySets(n, sets[..|sets| - 1]);
      Set(before, sets[|sets| - 1].0, sets[|sets| - 1].1)
  }

  function ApplyUnsets(n: Node, unsets: seq<seq<string>>): Result<Node, PathError>
    requires forall i | 0 <= i < |unsets| :: unsets[i] != []
  {
    if unsets == [] then Success(n)
    else
      var before :- ApplyUnsets(n, unsets[..|unsets| - 1]);
      Unset(before, unsets[|unsets| - 1])
  }

  /** Every set in order, then every unset in order. */
  function Apply(n: Node, p: Patch): Result<Node, PathError>
    requires Container(n) && ValidPatch(p)
  {
    var written :- ApplySets(n, p.sets);
    ApplyUnsets(written, p.unsets)
  }

  const NULL := Leaf("null")

  /** What is in the file once a document is written as JSON: holes have become null. */
  function Saved(n: Node): (r: Node)
    ensures Container(r) <==> Container(n)
  {
    match n
    case Leaf(_) => n
    case Object(fields) => Object(seq(|fields|, i requires 0 <= i < |fields| => (fields[i].0, Saved(fields[i].1))))
    case Array(items) =>
      Array(seq(|items|, i requires 0 <= i < |items| => Some(if items[i].Some? then Saved(items[i].value) else NULL)))
  }

  datatype PatchError = RevisionConflict | PathFailed

  /** A revisioned file; its content stands for its revision. */
  class FileRepository {
    var document: Node

    constructor (document: Node)
      ensures this.document == document
    {
      this.document := document;
    }

    /** All of a patch or nothing of it. */
    method ApplyPatch(p: Patch, expected: Option<Node>) returns (r: Result<(), PatchError>)
      requires Container(document) && ValidPatch(p)
      modifies this
      ensures r.Success? <==> (expected.None? || expected == Some(old(document))) && Apply(old(document), p).Success?
      ensures document == if r.Success? then Saved(Apply(old(document), p).value) else old(document)
      ensures r == Failure(RevisionConflict) <==> expected.Some? && expected.value != old(document)
    {
      if expected.Some? && expected.value != document {
        return Failure(RevisionConflict);
      }
      var next := ApplyAll(document, p);
      if next.Failure? {
        return Failure(PathFailed);
      }
      document := Saved(next.value);
      return Success(());
    }
  }

  /** The mutation: every set, then every unset, up to the first path that fails. */
  method ApplyAll(document: Node, p: Patch) returns (r: Result<Node, PathError>)
    requires Container(document) && ValidPatch(p)
    ensures r == Apply(document, p)
  {
    var written :- SetAll(document, p.sets);
    r := UnsetAll(written, p.unsets);
  }

  method SetAll(document: Node, sets: seq<(seq<string>, Node)>) returns (r: Result<Node, PathError>)
    requires Container(document) && forall i | 0 <= i < |sets| :: sets[i].0 != []
    ensures r == ApplySets(document, sets)
  {
    var next := document;
    for i := 0 to |sets|
      invariant Container(next) && ApplySets(document, sets[..i]) == Success(next)
    {
      assert sets[..i + 1][..i] == sets[..i];
      var written := SetAtPath(next, sets[i].0, sets[i].1);
      if written.Failure? {
        SetsFailureStays(document, sets, i + 1);
        return written;
      }
      next := written.value;
    }
    assert sets[..|sets|] == sets;
    return Success(next);
  }

  method UnsetAll(document: Node, unsets: seq<seq<string>>) returns (r: Result<Node, PathError>)
    requires forall i | 0 <= i < |unsets| :: unsets[i] != []
    ensures r == ApplyUnsets(document, unsets)
  {
    var next := document;
    for i := 0 to |unsets|
      invariant ApplyUnsets(document, unsets[..i]) == Success(next)
    {
      assert unsets[..i + 1][..i] == unsets[..i];
      var written := UnsetAtPath(next, unsets[i]);
      if written.Failure? {
        UnsetsFailureStays(document, unsets, i + 1);
        return written;
      }
      next := written.value;
    }
    assert unsets[..|unsets|] == unsets;
    return Success(next);
  }

  lemma {:induction false} SetsFailureStays(n: Node, sets: seq<(seq<string>, Node)>, k: nat)
    requires Container(n) && (forall i | 0 <= i < |sets| :: sets[i].0 != []) && k <= |sets|
    requires ApplySets(n, sets[..k]).Failure?
    ensures ApplySets(n, sets) == ApplySets(n, sets[..k])
  {
    if k < |sets| {
      var init := sets[..|sets| - 1];
      assert init[..k] == sets[..k];
      SetsFailureStays(n, init, k);
    } else {
      assert sets[..k] == sets;
    }
  }

  lemma {:induction false} UnsetsFailureStays(n: Node, unsets: seq<seq<string>>, k: nat)
    requires (forall i | 0 <= i < |unsets| :: unsets[i] != []) && k <= |unsets|
    requires ApplyUnsets(n, unsets[..k]).Failure?
    ensures ApplyUnsets(n, unsets) == ApplyUnsets(n, unsets[..k])
  {
    if k < |unsets| {
      var init := unsets[..|unsets| - 1];
      assert init[..k] == unsets[..k];
      UnsetsFailureStays(n, init, k);
    } else {
      assert unsets[..k] == unsets;
    }
  }
}
