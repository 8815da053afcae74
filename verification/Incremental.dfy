/** Incremental parsers over a byte stream: a loop that looks at the front of the buffered
    bytes and waits for more, consumes a piece, or halts. Both the protobuf codec and the HTTP
    request parser have this shape; that their result does not depend on how the stream is
    cut follows from one condition on a single look. */
module Incremental {
  import opened Bytes

  /** Parser state S, reasons to halt E. */
  datatype Step<+S, +E> =
    | Wait
    | Advance(used: nat, state: S)
    | Halt(used: nat, state: S, why: E)

  type Parser<!S, !E> = (S, bytes) -> Step<S, E>

  datatype Result<+S, +E> = Result(state: S, rest: bytes, why: Option<E>)

  /** A look uses only bytes that are there, and more bytes never change a decision. */
  ghost predicate Stable<S(!new), E(!new)>(p: Parser<S, E>) {
    && (forall s, a :: p(s, a).Advance? ==> 0 < p(s, a).used <= |a|)
    && (forall s, a :: p(s, a).Halt? ==> p(s, a).used <= |a|)
    && (forall s, a, b {:trigger p(s, a + b)} :: !p(s, a).Wait? ==> p(s, a + b) == p(s, a))
  }

  /** A halt consumes nothing, so that the next call halts again in the same way. */
  ghost predicate Sticky<S(!new), E(!new)>(p: Parser<S, E>) {
    forall s, a :: p(s, a).Halt? ==> p(s, a).used == 0 && p(s, a).state == s
  }

  /** One call: loop until the parser waits or halts. */
  ghost function Run<S(!new), E(!new)>(p: Parser<S, E>, s: S, buf: bytes): Result<S, E>
    requires Stable(p)
    decreases |buf|
  {
    match p(s, buf)
    case Wait => Result(s, buf, None)
    case Advance(n, s') => Run(p, s', buf[n..])
    case Halt(n, s', e) => Result(s', buf[n..], Some(e))
  }

  /** One call per arriving chunk until a call halts; what was not fed counts as left over. */
  ghost function FeedUntilHalt<S(!new), E(!new)>(p: Parser<S, E>, s: S, pending: bytes, chunks: seq<bytes>)
    : Result<S, E>
    requires Stable(p)
    decreases |chunks|
  {
    if chunks == [] then Result(s, pending, None)
    else
      var r := Run(p, s, pending + chunks[0]);
      if r.why.Some? then r.(rest := r.rest + Flatten(chunks[1..]))
      else FeedUntilHalt(p, r.state, r.rest, chunks[1..])
  }

  /** One call per arriving chunk, also after a halt; the reason is the last call's. */
  ghost function FeedAll<S(!new), E(!new)>(p: Parser<S, E>, s: S, pending: bytes, chunks: seq<bytes>)
    : Result<S, E>
    requires Stable(p)
    decreases |chunks|
  {
    if chunks == [] then Result(s, pending, None)
    else
      var r := Run(p, s, pending + chunks[0]);
      if |chunks| == 1 then r else FeedAll(p, r.state, r.rest, chunks[1..])
  }

  /** A call on a + b is a call on a, continued on what it left together with b. */
  lemma {:induction false} Resume<S(!new), E(!new)>(p: Parser<S, E>, s: S, a: bytes, b: bytes)
    requires Stable(p)
    ensures var r := Run(p, s, a);
            Run(p, s, a + b) == if r.why.Some? then r.(rest := r.rest + b) else Run(p, r.state, r.rest + b)
    decreases |a|
  {
    match p(s, a)
    case Wait =>
    case Advance(n, s') =>
      assert (a + b)[n..] == a[n..] + b;
      Resume(p, s', a[n..], b);
    case Halt(n, s', e) =>
      assert (a + b)[n..] == a[n..] + b;
  }

  lemma {:induction false} HaltRepeats<S(!new), E(!new)>(p: Parser<S, E>, s: S, a: bytes, b: bytes)
    requires Stable(p) && Sticky(p) && Run(p, s, a).why.Some?
    ensures var r := Run(p, s, a);
            Run(p, r.state, r.rest + b) == r.(rest := r.rest + b)
    decreases |a|
  {
    match p(s, a)
    case Advance(n, s') => HaltRepeats(p, s', a[n..], b);
    case Halt(n, s', e) =>
      assert a[0..] == a;
      assert (a + b)[0..] == a + b;
  }

  /** Feeding in any pieces until a halt gives the result of one call on the whole stream. */
  lemma {:induction false} FeedUntilHaltIsOneCall<S(!new), E(!new)>(
      p: Parser<S, E>, s: S, pending: bytes, chunks: seq<bytes>)
    requires Stable(p) && Run(p, s, pending) == Result(s, pending, None)
    ensures FeedUntilHalt(p, s, pending, chunks) == Run(p, s, pending + Flatten(chunks))
    decreases |chunks|
  {
    if chunks == [] {
      assert pending + Flatten(chunks) == pending;
    } else {
      var a := pending + chunks[0];
      var more := Flatten(chunks[1..]);
      assert pending + Flatten(chunks) == a + more;
      var r := Run(p, s, a);
      Resume(p, s, a, more);
      if r.why.None? {
        RunIsDone(p, s, a);
        FeedUntilHaltIsOneCall(p, r.state, r.rest, chunks[1..]);
      }
    }
  }

  /** After a call that did not halt, another call with no new bytes does nothing. */
  lemma RunIsDone<S(!new), E(!new)>(p: Parser<S, E>, s: S, a: bytes)
    requires Stable(p) && Run(p, s, a).why.None?
    ensures var r := Run(p, s, a); Run(p, r.state, r.rest) == r
  {
    var r := Run(p, s, a);
    Resume(p, s, a, []);
    assert a + [] == a && r.rest + [] == r.rest;
  }

  lemma {:induction false} FeedAllIsOneCall<S(!new), E(!new)>(
      p: Parser<S, E>, s: S, pending: bytes, chunks: seq<bytes>)
    requires Stable(p) && Sticky(p) && chunks != []
    ensures FeedAll(p, s, pending, chunks) == Run(p, s, pending + Flatten(chunks))
    decreases |chunks|
  {
    var a := pending + chunks[0];
    var more := Flatten(chunks[1..]);
    assert pending + Flatten(chunks) == a + more;
    var r := Run(p, s, a);
    if |chunks| == 1 {
      assert a + more == a;
    } else {
      FeedAllIsOneCall(p, r.state, r.rest, chunks[1..]);
      Resume(p, s, a, more);
      if r.why.Some? {
        HaltRepeats(p, s, a, more);
      }
    }
  }

  /** If the parser takes each piece for its items whatever follows, and waits on the tail, then one
      call on all the pieces and the tail collects exactly the items and leaves the tail. */
  lemma {:induction false} RunCollects<M(!new), E(!new)>(
      p: Parser<seq<M>, E>, done: seq<M>, pieces: seq<bytes>, items: seq<seq<M>>, tail: bytes)
    requires Stable(p) && |pieces| == |items|
    requires forall i, s, rest :: 0 <= i < |items| ==> p(s, pieces[i] + rest) == Advance(|pieces[i]|, s + items[i])
    requires forall s :: p(s, tail) == Wait
    ensures Run(p, done, Flatten(pieces) + tail) == Result(done + Flatten(items), tail, None)
    decreases |pieces|
  {
    if pieces == [] {
      assert Flatten(pieces) + tail == tail && done + Flatten(items) == done;
    } else {
      var rest := Flatten(pieces[1..]) + tail;
      assert Flatten(pieces) + tail == pieces[0] + rest;
      RunCollects(p, done + items[0], pieces[1..], items[1..], tail);
      assert (pieces[0] + rest)[|pieces[0]|..] == rest;
      AppendAssociative(done, items[0], Flatten(items[1..]));
    }
  }

  /** The same step, after other items. */
  function Shifted<M, E>(before: seq<M>, step: Step<seq<M>, E>): Step<seq<M>, E> {
    match step
    case Wait => Wait
    case Advance(n, s) => Advance(n, before + s)
    case Halt(n, s, e) => Halt(n, before + s, e)
  }

  /** A parser that only adds items does with a list of items what it does without it. */
  lemma {:induction false} RunShift<M(!new), E(!new)>(p: Parser<seq<M>, E>, before: seq<M>, s: seq<M>, buf: bytes)
    requires Stable(p) && forall t, a :: p(before + t, a) == Shifted(before, p(t, a))
    ensures var r := Run(p, s, buf); Run(p, before + s, buf) == r.(state := before + r.state)
    decreases |buf|
  {
    match p(s, buf)
    case Advance(n, s') => RunShift(p, before, s', buf[n..]);
    case _ =>
  }

  /** Every Advance adds items that stand in relation `rel` to the bytes used. */
  ghost predicate Emits<M(!new), E(!new)>(p: Parser<seq<M>, E>, rel: (bytes, seq<M>) -> bool) {
    && (forall s, a :: p(s, a).Halt? ==> p(s, a).used == 0 && p(s, a).state == s)
    && (forall s, a :: p(s, a).Advance? ==>
          && 0 < p(s, a).used <= |a|
          && s <= p(s, a).state
          && rel(a[..p(s, a).used], p(s, a).state[|s|..]))
  }

  /** A call that consumes `pieces` adds `items`, related one by one. */
  ghost predicate Emitted<M(!new), E(!new)>(p: Parser<seq<M>, E>, rel: (bytes, seq<M>) -> bool,
                                            s: seq<M>, buf: bytes, pieces: seq<bytes>, items: seq<seq<M>>)
    requires Stable(p)
  {
    && Run(p, s, buf).state == s + Flatten(items)
    && Flatten(pieces) + Run(p, s, buf).rest == buf
    && |pieces| == |items| && forall i :: 0 <= i < |pieces| ==> rel(pieces[i], items[i])
  }

  /** The bytes a call consumes are pieces related one by one to the items it adds. */
  lemma {:induction false} RunEmits<M(!new), E(!new)>(p: Parser<seq<M>, E>, rel: (bytes, seq<M>) -> bool,
                                                      s: seq<M>, buf: bytes)
      returns (pieces: seq<bytes>, items: seq<seq<M>>)
    requires Stable(p) && Emits(p, rel)
    ensures Emitted(p, rel, s, buf, pieces, items)
    decreases |buf|
  {
    pieces, items := [], [];
    match p(s, buf)
    case Wait =>
    case Halt(_, _, _) =>
      assert buf[0..] == buf;
    case Advance(n, s') =>
      var more, others := RunEmits(p, rel, s', buf[n..]);
      pieces, items := [buf[..n]] + more, [s'[|s|..]] + others;
      AddedJoins(s, s', others);
      PieceJoins(buf, n, more, Run(p, s', buf[n..]).rest);
  }

  lemma AddedJoins<T>(s: seq<T>, s': seq<T>, others: seq<seq<T>>)
    requires s <= s'
    ensures s + Flatten([s'[|s|..]] + others) == s' + Flatten(others)
  {
    FlattenCons(s'[|s|..], others);
  }

  lemma PieceJoins(buf: bytes, n: nat, more: seq<bytes>, rest: bytes)
    requires n <= |buf| && Flatten(more) + rest == buf[n..]
    ensures Flatten([buf[..n]] + more) + rest == buf
  {
    FlattenCons(buf[..n], more);
    AppendAssociative(buf[..n], Flatten(more), rest);
  }

  lemma FlattenCons<T>(a: seq<T>, more: seq<seq<T>>)
    ensures Flatten([a] + more) == a + Flatten(more)
  {
    assert ([a] + more)[1..] == more;
  }
}
