/**
  One registered expectation (`MonigoteSetup` in monigote.go): its fields,
  the chainable builders that configure it, the matching test `Call`
  applies to it, and the bookkeeping a match performs on it.
 */
module Setups {
  import opened Wrappers
  import opened Values

  /** Go `int` on a 64-bit platform. */
  type Int64 = x: int | -0x8000_0000_0000_0000 <= x <= 0x7fff_ffff_ffff_ffff

  /** Go `uint` on a 64-bit platform. */
  type Uint64 = x: int | 0 <= x <= 0xffff_ffff_ffff_ffff

  const UINT64_MODULUS: int := 0x1_0000_0000_0000_0000

  /** A user-supplied predicate over the whole argument list. */
  type Matcher = seq<Value> -> bool

  /**
    A setup. `id` stands for the identity of the heap object the Go code
    hands out: two setups are "the same pointer" exactly when their ids
    agree. `args` and `matchers` are nil-able slices; `times` is the
    remaining budget (-1 means persistent) and `wasCalled` the match tally.
   */
  datatype MonigoteSetup = MonigoteSetup(
    id: nat,
    methodName: string,
    args: Option<seq<Value>>,
    reply: seq<Value>,
    matchers: Option<seq<Matcher>>,
    times: Int64,
    wasCalled: Uint64)

  /** A variadic parameter: no actual arguments yields a nil slice. */
  function Variadic<T>(xs: seq<T>): (r: Option<seq<T>>)
    ensures r.None? <==> |xs| == 0
    ensures r.Some? ==> r.value == xs
  {
    if |xs| == 0 then None else Some(xs)
  }

  /** A fresh setup: budget 1, never called, no filters, empty reply. */
  function NewMonigoteSetup(id: nat): (s: MonigoteSetup)
    ensures s.id == id
    ensures s.times == 1 && s.wasCalled == 0
    ensures s.args.None? && s.matchers.None? && s.reply == []
    ensures !Done(s)
  {
    MonigoteSetup(id, "", None, [], None, 1, 0)
  }

  /** Sets the exact arguments; leaves the matchers alone. */
  function WhenCalledWith(s: MonigoteSetup, args: seq<Value>): (r: MonigoteSetup)
    ensures r.(args := s.args) == s
    ensures r.args.None? <==> |args| == 0
    ensures r.args.Some? ==> r.args.value == args
    ensures r.matchers == s.matchers
  {
    s.(args := Variadic(args))
  }

  /** Sets the matchers and clears the exact arguments. */
  function WhenCalled(s: MonigoteSetup, matchers: seq<Matcher>): (r: MonigoteSetup)
    ensures r.(args := s.args, matchers := s.matchers) == s
    ensures r.args.None?
    ensures r.matchers.None? <==> |matchers| == 0
    ensures r.matchers.Some? ==> r.matchers.value == matchers
  {
    s.(args := None, matchers := Variadic(matchers))
  }

  /** Sets the reply. */
  function ReplyWith(s: MonigoteSetup, reply: seq<Value>): (r: MonigoteSetup)
    ensures r.(reply := s.reply) == s
    ensures r.reply == reply
  {
    s.(reply := reply)
  }

  /** Sets the budget to `n`, whatever its sign. */
  function ReplyTimes(s: MonigoteSetup, n: Int64): (r: MonigoteSetup)
    ensures r.(times := s.times) == s
    ensures r.times == n
  {
    s.(times := n)
  }

  /** Makes the setup persistent: budget -1. */
  function Persist(s: MonigoteSetup): (r: MonigoteSetup)
    ensures r.(times := s.times) == s
    ensures r.times == -1
    ensures Done(r) <==> s.wasCalled > 0
  {
    s.(times := -1)
  }

  /**
    One builder call, as data: each of the chainable methods of
    `MonigoteSetup` with its arguments. Go applies such a call to the live
    object behind a pointer, so the registry applies it to the slot that
    holds the object, whatever that slot has become since.
   */
  datatype Builder =
    | WithArgs(args: seq<Value>)
    | WithMatchers(matchers: seq<Matcher>)
    | WithReply(reply: seq<Value>)
    | WithTimes(n: Int64)
    | MakePersistent

  /** The builder call `b` on `s`: it never touches identity, method or tally. */
  function Apply(b: Builder, s: MonigoteSetup): (r: MonigoteSetup)
    ensures r.id == s.id && r.methodName == s.methodName && r.wasCalled == s.wasCalled
  {
    match b
    case WithArgs(args) => WhenCalledWith(s, args)
    case WithMatchers(ms) => WhenCalled(s, ms)
    case WithReply(reply) => ReplyWith(s, reply)
    case WithTimes(n) => ReplyTimes(s, n)
    case MakePersistent => Persist(s)
  }

  /** A chain of builder calls, applied left to right as Go evaluates it. */
  function ApplyAll(bs: seq<Builder>, s: MonigoteSetup): (r: MonigoteSetup)
    ensures r.id == s.id && r.methodName == s.methodName && r.wasCalled == s.wasCalled
  {
    if |bs| == 0 then s else ApplyAll(bs[1..], Apply(bs[0], s))
  }

  /** A chain split in two is the first part followed by the second. */
  lemma {:induction false} ApplyAllAppend(bs: seq<Builder>, cs: seq<Builder>, s: MonigoteSetup)
    ensures ApplyAll(bs + cs, s) == ApplyAll(cs, ApplyAll(bs, s))
  {
    if |bs| > 0 {
      assert (bs + cs)[0] == bs[0];
      assert (bs + cs)[1..] == bs[1..] + cs;
      ApplyAllAppend(bs[1..], cs, Apply(bs[0], s));
    } else {
      assert bs + cs == cs;
    }
  }

  /**
    The builders do not clear each other symmetrically: exact arguments set
    after matchers keep the matchers, so a setup can carry both filters.
   */
  lemma BothFiltersReachable(s: MonigoteSetup, ms: seq<Matcher>, args: seq<Value>)
    requires |ms| > 0 && |args| > 0
    ensures var r := WhenCalledWith(WhenCalled(s, ms), args);
      r.args == Some(args) && r.matchers == Some(ms)
    ensures WhenCalled(WhenCalledWith(s, args), ms).args.None?
  {
  }

  /**
    The matcher loop of `Call`: every matcher is tried in order and the
    first one that rejects ends the loop with a failure.
   */
  predicate AllAccept(ms: seq<Matcher>, args: seq<Value>)
  {
    |ms| == 0 || (ms[0](args) && AllAccept(ms[1..], args))
  }

  /** The matcher loop accepts exactly when every matcher accepts. */
  lemma {:induction false} AllAcceptMeansEvery(ms: seq<Matcher>, args: seq<Value>)
    ensures AllAccept(ms, args) <==> forall i :: 0 <= i < |ms| ==> ms[i](args)
  {
    if |ms| > 0 {
      AllAcceptMeansEvery(ms[1..], args);
      assert forall i :: 1 <= i < |ms| ==> ms[i] == ms[1..][i - 1];
    }
  }

  /** The exact-argument test: nil is a wildcard, otherwise deep equality. */
  predicate ArgsAccept(s: MonigoteSetup, args: seq<Value>)
  {
    s.args.None? || DeepEqualSeq(s.args.value, args)
  }

  /** The matcher test: nil is a wildcard, otherwise the matcher loop. */
  predicate MatchersAccept(s: MonigoteSetup, args: seq<Value>)
  {
    s.matchers.None? || AllAccept(s.matchers.value, args)
  }

  /** The full test `Call` applies to one candidate setup. */
  predicate Matches(s: MonigoteSetup, methodName: string, args: seq<Value>)
  {
    s.methodName == methodName && ArgsAccept(s, args) && MatchersAccept(s, args)
  }

  /**
    A candidate matches exactly when it is for this method, its exact
    arguments are nil or equal the call's, and its matchers are nil or all
    accept; when both filters are set, both are applied.
   */
  lemma MatchesMeans(s: MonigoteSetup, methodName: string, args: seq<Value>)
    ensures Matches(s, methodName, args) <==>
      && s.methodName == methodName
      && (s.args.None? || s.args.value == args)
      && (s.matchers.None? || forall i :: 0 <= i < |s.matchers.value| ==> s.matchers.value[i](args))
  {
    if s.args.Some? {
      DeepEqualSeqIsEquality(s.args.value, args);
    }
    if s.matchers.Some? {
      AllAcceptMeansEvery(s.matchers.value, args);
    }
  }

  /**
    `WhenCalled()` with no arguments matches any call of the method, and so
    does `WhenCalledWith()` with no arguments on a setup without matchers;
    matchers set earlier still apply, since `WhenCalledWith` keeps them.
   */
  lemma EmptyFiltersAreWildcards(s: MonigoteSetup, args: seq<Value>)
    ensures Matches(WhenCalled(s.(methodName := "m"), []), "m", args)
    ensures s.matchers.None? ==> Matches(WhenCalledWith(s.(methodName := "m"), []), "m", args)
  {
  }

  /** `uint` increment: wraps to 0 past the largest value. */
  function Inc(w: Uint64): (r: Uint64)
    ensures r == (w + 1) % UINT64_MODULUS
  {
    if w == 0xffff_ffff_ffff_ffff then 0 else w + 1
  }

  /**
    The bookkeeping of a match on the winning setup: the tally goes up by
    one and a positive budget goes down by one; a zero or negative budget
    is left as it is.
   */
  function Consume(s: MonigoteSetup): (r: MonigoteSetup)
    ensures r.(times := s.times, wasCalled := s.wasCalled) == s
    ensures r.wasCalled == (s.wasCalled + 1) % UINT64_MODULUS
    ensures s.times > 0 ==> 0 <= r.times == s.times - 1
    ensures s.times <= 0 ==> r.times == s.times
  {
    var tallied := s.(wasCalled := Inc(s.wasCalled));
    if tallied.times > 0 then tallied.(times := tallied.times - 1) else tallied
  }

  /** A setup `IsDone` accepts: persistent with budget exactly -1, and matched. */
  predicate Done(s: MonigoteSetup)
  {
    s.times == -1 && s.wasCalled > 0
  }

  /**
    Every negative budget behaves as persistent under matching, but only -1
    counts as done: a setup with budget -2 is never done however often it
    matches, and one with budget 0 likewise.
   */
  lemma OnlyMinusOneCanBeDone(s: MonigoteSetup)
    requires s.times != -1
    ensures !Done(s)
    ensures s.times <= 0 ==> Consume(s).times == s.times && !Done(Consume(s))
  {
  }
}
