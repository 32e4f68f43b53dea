/**
 * The clear-scroll endpoint of the typed client: the request patch that moves a
 * scroll id out of the request path's parameters and into the raw request body,
 * and the call that hands the patched path and the body to the low-level
 * clear-scroll dispatch.
 */
module ClearScrollEndpoint {

  import opened Wrappers

  /** The scroll id that means "every open scroll"; it stays a parameter. */
  const AllScrolls: string := "_all"

  /** True when a scroll id must travel as the request body: present and not `_all`. */
  predicate MovesToBody(scrollId: Option<string>)
  {
    scrollId.Some? && scrollId.value != AllScrolls
  }

  /**
   * The value held by a clear-scroll request path: its scroll id (absent when null)
   * and every other route value and query-string parameter, by name.
   */
  datatype Path = Path(scrollId: Option<string>, otherParameters: map<string, string>)

  /** What the patch produces: the path as left behind, and the raw body to send. */
  datatype PatchOutcome = PatchOutcome(path: Path, body: Option<string>)

  /**
   * The arguments handed to the low-level clear-scroll dispatch, blocking or
   * asynchronous: the path and the raw body. Which of the two receives them is not modelled.
   */
  datatype DispatchCall = DispatchArguments(path: Path, body: Option<string>)

  /** The outcomes the patch can produce; `Unpatch` inverts the patch on exactly these. */
  predicate Reachable(o: PatchOutcome)
  {
    && (o.path.scrollId.None? || o.path.scrollId == Some(AllScrolls))
    && (o.body.Some? ==> o.path.scrollId.None? && o.body.value != AllScrolls)
  }

  /**
   * The clear-scroll patch as a function of the path's value. A body is produced
   * exactly when the id moves; it is the id itself, unaltered; the id then no longer
   * sits in the path, so it is never sent twice; whatever is left as the scroll id
   * is absent or `_all`; and no other parameter changes.
   */
  function Patched(s: Path): (r: PatchOutcome)
    ensures r.body.Some? <==> MovesToBody(s.scrollId)
    ensures r.body.Some? ==> r.body == s.scrollId && r.body.value != AllScrolls
    ensures r.body.Some? ==> r.path.scrollId.None?
    ensures r.body.None? ==> r.path == s
    ensures r.path.scrollId.None? || r.path.scrollId == Some(AllScrolls)
    ensures r.path.otherParameters == s.otherParameters
  {
    if MovesToBody(s.scrollId) then
      PatchOutcome(s.(scrollId := None), s.scrollId)
    else
      PatchOutcome(s, None)
  }

  /**
   * Puts a moved body back as the scroll id. On every reachable outcome it gives the
   * one path the patch maps to that outcome, so the patch loses nothing.
   */
  function Unpatch(o: PatchOutcome): (s: Path)
    requires Reachable(o)
    ensures Patched(s) == o
    ensures s.otherParameters == o.path.otherParameters
  {
    if o.body.Some? then o.path.(scrollId := o.body) else o.path
  }

  /** Every outcome of the patch is reachable, and `Unpatch` recovers the path it came from. */
  lemma PatchRoundTrip(s: Path)
    ensures Reachable(Patched(s))
    ensures Unpatch(Patched(s)) == s
  {
  }

  /**
   * A second patch of an already patched path changes nothing and returns no body:
   * the path's state is idempotent, the returned body is not.
   */
  lemma PatchIdempotentOnPath(s: Path)
    ensures Patched(Patched(s).path).path == Patched(s).path
    ensures Patched(Patched(s).path).body == None
  {
  }

  /** The path left after `n` consecutive patches of `s`, and the bodies they return in order. */
  function PatchTimes(s: Path, n: nat): (r: (Path, seq<Option<string>>))
    ensures |r.1| == n
    decreases n
  {
    if n == 0 then
      (s, [])
    else
      var o := Patched(s);
      var rest := PatchTimes(o.path, n - 1);
      (rest.0, [o.body] + rest.1)
  }

  /**
   * Patching any positive number of times leaves the path exactly as one patch does;
   * only the first call can return a body, every later call returns none.
   */
  lemma {:induction false} PatchTimesIsPatchOnce(s: Path, n: nat)
    requires n >= 1
    decreases n
    ensures PatchTimes(s, n).0 == Patched(s).path
    ensures PatchTimes(s, n).1[0] == Patched(s).body
    ensures forall i :: 1 <= i < n ==> PatchTimes(s, n).1[i] == None
  {
    var o := Patched(s);
    if n > 1 {
      PatchTimesIsPatchOnce(o.path, n - 1);
      PatchIdempotentOnPath(s);
      var rest := PatchTimes(o.path, n - 1);
      assert PatchTimes(s, n).1 == [o.body] + rest.1;
      forall i | 1 <= i < n
        ensures PatchTimes(s, n).1[i] == None
      {
        assert PatchTimes(s, n).1[i] == rest.1[i - 1];
      }
    }
  }

  /** The mutable path/parameter object of one clear-scroll call. */
  class RequestPath {
    var scrollId: Option<string>
    var otherParameters: map<string, string>

    constructor (scrollId: Option<string>, otherParameters: map<string, string>)
      ensures State() == Path(scrollId, otherParameters)
    {
      this.scrollId := scrollId;
      this.otherParameters := otherParameters;
    }

    /** The current value of this path. */
    function State(): Path
      reads this
    {
      Path(scrollId, otherParameters)
    }
  }

  /**
   * Clears the scroll id from `p` and returns it as the raw body when it is present and
   * not `_all`; otherwise leaves `p` alone and returns no body. Only `p.scrollId` may be
   * written, and only in the moving branch.
   */
  method PatchClearScroll(p: RequestPath) returns (body: Option<string>)
    modifies p`scrollId
    ensures PatchOutcome(p.State(), body) == Patched(old(p.State()))
    ensures body.Some? <==> MovesToBody(old(p.scrollId))
    ensures body.Some? ==> body == old(p.scrollId) && p.scrollId.None?
    ensures !MovesToBody(old(p.scrollId)) ==> body.None? && unchanged(p)
    ensures p.scrollId.None? || p.scrollId == Some(AllScrolls)
  {
    body := None;
    var scrollId := p.scrollId;
    if scrollId.Some? && scrollId.value != AllScrolls {
      p.scrollId := None;
      body := scrollId;
    }
  }

  /**
   * The arguments the blocking and asynchronous clear-scroll entry points both build:
   * patches `p` and pairs the patched path with the body, as handed to the low-level
   * clear-scroll dispatch.
   */
  method ClearScrollDispatchCall(p: RequestPath) returns (call: DispatchCall)
    modifies p`scrollId
    ensures call.path == p.State()
    ensures PatchOutcome(call.path, call.body) == Patched(old(p.State()))
  {
    var body := PatchClearScroll(p);
    call := DispatchArguments(p.State(), body);
  }

  /**
   * A clear-scroll call for a request whose scroll id and other parameters are those of
   * `request`: the dispatcher builds a fresh path from the request and runs the dispatch
   * step on it. The id reaches the transport exactly once, as body or as parameter.
   */
  method ClearScroll(request: Path) returns (call: DispatchCall)
    ensures call.body.Some? <==> MovesToBody(request.scrollId)
    ensures call.body.Some? ==> call.body == request.scrollId && call.path.scrollId.None?
    ensures call.body.None? ==> call.path == request
    ensures call.path.otherParameters == request.otherParameters
  {
    var p := new RequestPath(request.scrollId, request.otherParameters);
    call := ClearScrollDispatchCall(p);
  }
}
