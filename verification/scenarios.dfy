/**
  The two cases of monigote_test.go, driven through the registry: the
  double's method names, the registrations as the test chains them, and
  the outcomes it asserts.
 */
module Scenarios {
  import opened Values
  import opened Setups
  import opened Mock

  const MY_METHOD: string := "MyMethod"
  const MY_METHOD_B: string := "MyMethodB"

  /** The loose case's predicate: the first argument is an int above 10. */
  function GreaterThanTen(args: seq<Value>): bool
  {
    |args| > 0 && args[0].Int? && args[0].i > 10
  }

  /** The strict case's first setup: exactly `MyMethod(1)`, replying true, once. */
  function StrictFirst(): MonigoteSetup
  {
    ReplyWith(WhenCalledWith(NewMonigoteSetup(0).(methodName := MY_METHOD), [Int(1)]), [Bool(true)])
  }

  /** The strict case's second setup: exactly `MyMethod(0)`, replying false, once. */
  function StrictSecond(): MonigoteSetup
  {
    ReplyWith(WhenCalledWith(NewMonigoteSetup(1).(methodName := MY_METHOD), [Int(0)]), [Bool(false)])
  }

  /** The strict case after its first registration. */
  function StrictStage1(): Monigote
  {
    var r := Setup(NewMonigote(), MY_METHOD);
    Amend(r.state, MY_METHOD, r.setup.id, [WithArgs([Int(1)]), WithReply([Bool(true)])])
  }

  /** The strict case after both registrations. */
  function StrictFixture(): Monigote
  {
    var r := Setup(StrictStage1(), MY_METHOD);
    Amend(r.state, MY_METHOD, r.setup.id, [WithArgs([Int(0)]), WithReply([Bool(false)])])
  }

  /** The first strict registration leaves one setup for `MyMethod` and nothing else. */
  lemma StrictStage1Shape()
    ensures Valid(StrictStage1()) && StrictStage1().nextId == 1
    ensures SetupsFor(StrictStage1(), MY_METHOD) == [StrictFirst()]
    ensures forall k :: k != MY_METHOD ==> SetupsFor(StrictStage1(), k) == []
    ensures forall k :: CallsFor(StrictStage1(), k) == []
  {
    var st0 := NewMonigote();
    assert Setup(st0, MY_METHOD).setup == NewMonigoteSetup(0).(methodName := MY_METHOD);
    var chain := [WithArgs([Int(1)]), WithReply([Bool(true)])];
    assert chain[1..][1..] == [];
    ConfigureRegistered(st0, MY_METHOD, chain);
    assert StrictStage1() == Amend(Setup(st0, MY_METHOD).state, MY_METHOD, Setup(st0, MY_METHOD).setup.id, chain);
  }

  /** The strict registrations leave the two setups, in order, and nothing else. */
  lemma StrictFixtureShape()
    ensures Valid(StrictFixture())
    ensures SetupsFor(StrictFixture(), MY_METHOD) == [StrictFirst(), StrictSecond()]
    ensures forall k :: k != MY_METHOD ==> SetupsFor(StrictFixture(), k) == []
    ensures forall k :: CallsFor(StrictFixture(), k) == []
  {
    StrictStage1Shape();
    var st1 := StrictStage1();
    assert Setup(st1, MY_METHOD).setup == NewMonigoteSetup(1).(methodName := MY_METHOD);
    var chain := [WithArgs([Int(0)]), WithReply([Bool(false)])];
    assert chain[1..][1..] == [];
    ConfigureRegistered(st1, MY_METHOD, chain);
    assert StrictFixture() == Amend(Setup(st1, MY_METHOD).state, MY_METHOD, Setup(st1, MY_METHOD).setup.id, chain);
  }

  /** A registry holding just the two strict setups, in order, with no history. */
  ghost predicate StrictRegistered(st: Monigote)
  {
    && Valid(st)
    && SetupsFor(st, MY_METHOD) == [StrictFirst(), StrictSecond()]
    && (forall k :: k != MY_METHOD ==> SetupsFor(st, k) == [])
    && CallsFor(st, MY_METHOD) == []
  }

  /** `MyMethod(1)` consumes the first strict setup; the second is still pending. */
  lemma StrictFirstCall(st: Monigote)
    requires StrictRegistered(st)
    ensures var s1 := Call(st, MY_METHOD, [Int(1)]);
      && s1.outcome == Found([Bool(true)])
      && !AllDone(s1.state)
      && Valid(s1.state)
      && SetupsFor(s1.state, MY_METHOD) == [StrictSecond()]
      && (forall k :: k != MY_METHOD ==> SetupsFor(s1.state, k) == [])
      && CallsFor(s1.state, MY_METHOD) == [MonigoteCall(MY_METHOD, [Int(1)], [Bool(true)], true, false)]
  {
    MatchesMeans(StrictFirst(), MY_METHOD, [Int(1)]);
    CallWinner(st, MY_METHOD, [Int(1)], 0);
    CallPreservesValid(st, MY_METHOD, [Int(1)]);
    var s1 := Call(st, MY_METHOD, [Int(1)]).state;
    assert MY_METHOD in s1.setups && !Done(s1.setups[MY_METHOD][0]);
    var h1 := CallsFor(s1, MY_METHOD);
    assert h1 == [] + [h1[0]];
  }

  /** `MyMethod(0)` consumes the second strict setup; the registry is then done. */
  lemma StrictSecondCall(s1: Monigote)
    requires Valid(s1)
    requires SetupsFor(s1, MY_METHOD) == [StrictSecond()]
    requires forall k :: k != MY_METHOD ==> SetupsFor(s1, k) == []
    ensures var s2 := Call(s1, MY_METHOD, [Int(0)]);
      && s2.outcome == Found([Bool(false)])
      && AllDone(s2.state)
      && CallsFor(s2.state, MY_METHOD) == CallsFor(s1, MY_METHOD) + [MonigoteCall(MY_METHOD, [Int(0)], [Bool(false)], true, false)]
      && Call(s2.state, MY_METHOD, [Int(1)]).outcome == Fatal
  {
    MatchesMeans(StrictSecond(), MY_METHOD, [Int(0)]);
    CallWinner(s1, MY_METHOD, [Int(0)], 0);
    var s2 := Call(s1, MY_METHOD, [Int(0)]).state;
    assert SetupsFor(s2, MY_METHOD) == [];
    forall k
      ensures ListDone(SetupsFor(s2, k))
    {
      if k != MY_METHOD {
        assert SetupsFor(s2, k) == SetupsFor(s1, k) == [];
      }
    }
    AllDoneByLookup(s2);
    var h := CallsFor(s1, MY_METHOD);
    var h2 := CallsFor(s2, MY_METHOD);
    assert h2 == h + [h2[|h|]];
  }

  /**
    Strict setups are consumed in registration order: the registry is not
    done after the first call and is done after the second, the history
    holds both calls in order, and a third call has nothing left to match.
   */
  lemma StrictSetupsConsumedInOrder()
    ensures var first := Call(StrictFixture(), MY_METHOD, [Int(1)]);
      var second := Call(first.state, MY_METHOD, [Int(0)]);
      && first.outcome == Found([Bool(true)])
      && !AllDone(first.state)
      && second.outcome == Found([Bool(false)])
      && AllDone(second.state)
      && |CallsFor(second.state, MY_METHOD)| == 2
      && CallsFor(second.state, MY_METHOD)[0].args == [Int(1)]
      && CallsFor(second.state, MY_METHOD)[1].args == [Int(0)]
      && Call(second.state, MY_METHOD, [Int(1)]).outcome == Fatal
  {
    StrictFixtureShape();
    StrictFirstCall(StrictFixture());
    StrictSecondCall(Call(StrictFixture(), MY_METHOD, [Int(1)]).state);
  }

  /**
    A pointer kept across a call still reaches the live object: a setup
    given budget 3 and matched once keeps its tally 1 and budget 2 when
    `ReplyWith` is later called through the same pointer.
   */
  lemma HandleHeldAcrossCall()
    ensures var r := Setup(NewMonigote(), MY_METHOD);
      var st1 := Amend(r.state, MY_METHOD, r.setup.id, [WithTimes(3)]);
      var c := Call(st1, MY_METHOD, []);
      var st2 := Amend(c.state, MY_METHOD, r.setup.id, [WithReply([Bool(true)])]);
      && c.outcome == Found([])
      && SetupsFor(st2, MY_METHOD) == [r.setup.(times := 2, wasCalled := 1, reply := [Bool(true)])]
  {
    var st0 := NewMonigote();
    var r := Setup(st0, MY_METHOD);
    var chain := [WithTimes(3)];
    assert chain[1..] == [];
    ConfigureRegistered(st0, MY_METHOD, chain);
    var st1 := Amend(r.state, MY_METHOD, r.setup.id, chain);
    var s1 := r.setup.(times := 3);
    assert SetupsFor(st1, MY_METHOD) == [s1];
    MatchesMeans(s1, MY_METHOD, []);
    CallWinner(st1, MY_METHOD, [], 0);
    var c := Call(st1, MY_METHOD, []);
    assert SetupsFor(c.state, MY_METHOD) == [Consume(s1)];
    var reply := [WithReply([Bool(true)])];
    assert reply[1..] == [];
  }

  /**
    A budget of 0 keeps a setup pending under calls alone: after
    `ReplyTimes(0)` a match leaves it registered with budget 0, and the
    registry is not done.
   */
  lemma ZeroBudgetPendingAfterCall()
    ensures var r := Setup(NewMonigote(), MY_METHOD);
      var st1 := Amend(r.state, MY_METHOD, r.setup.id, [WithTimes(0)]);
      var c1 := Call(st1, MY_METHOD, []);
      && c1.outcome == Found([])
      && Valid(c1.state)
      && SetupsFor(c1.state, MY_METHOD) == [r.setup.(times := 0, wasCalled := 1)]
      && (forall k :: k != MY_METHOD ==> SetupsFor(c1.state, k) == [])
      && !AllDone(c1.state)
  {
    var st0 := NewMonigote();
    var r := Setup(st0, MY_METHOD);
    var zero := [WithTimes(0)];
    assert zero[1..] == [];
    ConfigureRegistered(st0, MY_METHOD, zero);
    var st1 := Amend(r.state, MY_METHOD, r.setup.id, zero);
    var s1 := r.setup.(times := 0);
    assert SetupsFor(st1, MY_METHOD) == [s1];
    MatchesMeans(s1, MY_METHOD, []);
    CallWinner(st1, MY_METHOD, [], 0);
    CallPreservesValid(st1, MY_METHOD, []);
    var c1 := Call(st1, MY_METHOD, []);
    assert SetupsFor(c1.state, MY_METHOD) == [Consume(s1)];
    assert MY_METHOD in c1.state.setups && !Done(c1.state.setups[MY_METHOD][0]);
  }

  /**
    ...but not for good: `ReplyTimes(1)` through a held pointer to a
    pending budget-0 setup makes the next match remove it, and a registry
    holding nothing else is then done.
   */
  lemma ZeroBudgetRevivedThroughHandle(st: Monigote, s: MonigoteSetup)
    requires Valid(st)
    requires SetupsFor(st, MY_METHOD) == [s] && s.times == 0
    requires s.args.None? && s.matchers.None?
    requires forall k :: k != MY_METHOD ==> SetupsFor(st, k) == []
    ensures var st2 := Amend(st, MY_METHOD, s.id, [WithTimes(1)]);
      var c2 := Call(st2, MY_METHOD, []);
      && c2.outcome == Found(s.reply)
      && SetupsFor(c2.state, MY_METHOD) == []
      && AllDone(c2.state)
  {
    var one := [WithTimes(1)];
    assert one[1..] == [];
    var st2 := Amend(st, MY_METHOD, s.id, one);
    var s2 := s.(times := 1);
    assert ApplyAll(one, s) == ApplyAll(one[1..], s2) == s2;
    assert SetupsFor(st2, MY_METHOD)[0] == s2;
    assert SetupsFor(st2, MY_METHOD) == [s2];
    MatchesMeans(s2, MY_METHOD, []);
    CallWinner(st2, MY_METHOD, [], 0);
    var c2 := Call(st2, MY_METHOD, []);
    assert SetupsFor(c2.state, MY_METHOD) == [];
    forall k
      ensures ListDone(SetupsFor(c2.state, k))
    {
      if k != MY_METHOD {
        assert SetupsFor(c2.state, k) == SetupsFor(st2, k) == SetupsFor(st, k) == [];
      }
    }
    AllDoneByLookup(c2.state);
  }

  /** The loose case's first setup: persistent, guarded by `GreaterThanTen`. */
  function LoosePredicate(): MonigoteSetup
  {
    Persist(ReplyWith(WhenCalled(NewMonigoteSetup(0).(methodName := MY_METHOD), [GreaterThanTen]), [Bool(false)]))
  }

  /** The loose case's second setup: exactly `MyMethod(1)`, once. */
  function LooseExact(): MonigoteSetup
  {
    ReplyWith(WhenCalledWith(NewMonigoteSetup(1).(methodName := MY_METHOD), [Int(1)]), [Bool(true)])
  }

  /** The loose case's third setup: any `MyMethodB` call, twice. */
  function LooseWildcard(): MonigoteSetup
  {
    ReplyTimes(ReplyWith(WhenCalled(NewMonigoteSetup(2).(methodName := MY_METHOD_B), []), [Bool(false)]), 2)
  }

  /** The loose case after its first registration. */
  function LooseStage1(): Monigote
  {
    var r := Setup(NewMonigote(), MY_METHOD);
    Amend(r.state, MY_METHOD, r.setup.id, [WithMatchers([GreaterThanTen]), WithReply([Bool(false)]), MakePersistent])
  }

  /** The loose case after its second registration. */
  function LooseStage2(): Monigote
  {
    var r := Setup(LooseStage1(), MY_METHOD);
    Amend(r.state, MY_METHOD, r.setup.id, [WithArgs([Int(1)]), WithReply([Bool(true)])])
  }

  /**
    The loose case: a persistent predicate setup registered first, an exact
    setup after it, and a wildcard setup with budget 2 on another method.
   */
  function LooseFixture(): Monigote
  {
    var r := Setup(LooseStage2(), MY_METHOD_B);
    Amend(r.state, MY_METHOD_B, r.setup.id, [WithMatchers([]), WithReply([Bool(false)]), WithTimes(2)])
  }

  /** The first loose registration leaves the predicate setup and nothing else. */
  lemma LooseStage1Shape()
    ensures Valid(LooseStage1()) && LooseStage1().nextId == 1
    ensures SetupsFor(LooseStage1(), MY_METHOD) == [LoosePredicate()]
    ensures forall k :: k != MY_METHOD ==> SetupsFor(LooseStage1(), k) == []
    ensures forall k :: CallsFor(LooseStage1(), k) == []
  {
    var st0 := NewMonigote();
    assert Setup(st0, MY_METHOD).setup == NewMonigoteSetup(0).(methodName := MY_METHOD);
    var s0 := Setup(st0, MY_METHOD).setup;
    var chain := [WithMatchers([GreaterThanTen]), WithReply([Bool(false)]), MakePersistent];
    var s1 := WhenCalled(s0, [GreaterThanTen]);
    var s2 := ReplyWith(s1, [Bool(false)]);
    assert ApplyAll(chain, s0) == ApplyAll(chain[1..], s1);
    assert ApplyAll(chain[1..], s1) == ApplyAll(chain[1..][1..], s2);
    assert chain[1..][1..][1..] == [];
    assert ApplyAll(chain[1..][1..], s2) == Persist(s2);
    assert Persist(s2) == LoosePredicate();
    ConfigureRegistered(st0, MY_METHOD, chain);
    assert SetupsFor(Setup(st0, MY_METHOD).state, MY_METHOD) == [s0];
    assert LooseStage1() == Amend(Setup(st0, MY_METHOD).state, MY_METHOD, s0.id, chain);
  }

  /** The second loose registration adds the exact setup after the predicate setup. */
  lemma LooseStage2Shape()
    ensures Valid(LooseStage2()) && LooseStage2().nextId == 2
    ensures SetupsFor(LooseStage2(), MY_METHOD) == [LoosePredicate(), LooseExact()]
    ensures forall k :: k != MY_METHOD ==> SetupsFor(LooseStage2(), k) == []
    ensures forall k :: CallsFor(LooseStage2(), k) == []
  {
    LooseStage1Shape();
    var st1 := LooseStage1();
    assert Setup(st1, MY_METHOD).setup == NewMonigoteSetup(1).(methodName := MY_METHOD);
    var chain := [WithArgs([Int(1)]), WithReply([Bool(true)])];
    assert chain[1..][1..] == [];
    ConfigureRegistered(st1, MY_METHOD, chain);
    assert LooseStage2() == Amend(Setup(st1, MY_METHOD).state, MY_METHOD, Setup(st1, MY_METHOD).setup.id, chain);
  }

  /** The registrations leave exactly the three setups, in order. */
  lemma LooseFixtureShape()
    ensures Valid(LooseFixture())
    ensures SetupsFor(LooseFixture(), MY_METHOD) == [LoosePredicate(), LooseExact()]
    ensures SetupsFor(LooseFixture(), MY_METHOD_B) == [LooseWildcard()]
    ensures forall k :: k != MY_METHOD && k != MY_METHOD_B ==> SetupsFor(LooseFixture(), k) == []
    ensures forall k :: CallsFor(LooseFixture(), k) == []
  {
    LooseStage2Shape();
    var st2 := LooseStage2();
    assert Setup(st2, MY_METHOD_B).setup == NewMonigoteSetup(2).(methodName := MY_METHOD_B);
    var chain := [WithMatchers([]), WithReply([Bool(false)]), WithTimes(2)];
    assert chain[1..][1..][1..] == [];
    ConfigureRegistered(st2, MY_METHOD_B, chain);
    assert LooseFixture() == Amend(Setup(st2, MY_METHOD_B).state, MY_METHOD_B, Setup(st2, MY_METHOD_B).setup.id, chain);
  }

  /** `MyMethod(1)`: the predicate rejects 1, so the exact setup answers and is consumed. */
  lemma LooseExactCall(st: Monigote)
    requires Valid(st)
    requires SetupsFor(st, MY_METHOD) == [LoosePredicate(), LooseExact()]
    ensures var s1 := Call(st, MY_METHOD, [Int(1)]);
      && s1.outcome == Found([Bool(true)])
      && CallsFor(s1.state, MY_METHOD) == CallsFor(st, MY_METHOD) + [MonigoteCall(MY_METHOD, [Int(1)], [Bool(true)], true, false)]
      && SetupsFor(s1.state, MY_METHOD) == [LoosePredicate()]
      && Valid(s1.state)
      && OthersUnchanged(st, s1.state, MY_METHOD)
  {
    MatchesMeans(LoosePredicate(), MY_METHOD, [Int(1)]);
    MatchesMeans(LooseExact(), MY_METHOD, [Int(1)]);
    CallWinner(st, MY_METHOD, [Int(1)], 1);
    CallPreservesValid(st, MY_METHOD, [Int(1)]);
    var h := CallsFor(st, MY_METHOD);
    var h1 := CallsFor(Call(st, MY_METHOD, [Int(1)]).state, MY_METHOD);
    assert h1 == h + [h1[|h|]];
  }

  /** `MyMethod(11)`: the predicate accepts, answers, stays, and marks its record persistent. */
  lemma LoosePredicateCall(st: Monigote)
    requires Valid(st)
    requires SetupsFor(st, MY_METHOD) == [LoosePredicate()]
    ensures var s2 := Call(st, MY_METHOD, [Int(11)]);
      && s2.outcome == Found([Bool(false)])
      && CallsFor(s2.state, MY_METHOD) == CallsFor(st, MY_METHOD) + [MonigoteCall(MY_METHOD, [Int(11)], [Bool(false)], true, true)]
      && SetupsFor(s2.state, MY_METHOD) == [Consume(LoosePredicate())]
      && Valid(s2.state)
      && OthersUnchanged(st, s2.state, MY_METHOD)
  {
    MatchesMeans(LoosePredicate(), MY_METHOD, [Int(11)]);
    CallWinner(st, MY_METHOD, [Int(11)], 0);
    CallPreservesValid(st, MY_METHOD, [Int(11)]);
    var h := CallsFor(st, MY_METHOD);
    var h1 := CallsFor(Call(st, MY_METHOD, [Int(11)]).state, MY_METHOD);
    assert h1 == h + [h1[|h|]];
  }

  /** The first `MyMethodB` call, whatever its arguments: the wildcard answers with one use left. */
  lemma LooseWildcardFirstCall(st: Monigote, a: seq<Value>)
    requires Valid(st)
    requires SetupsFor(st, MY_METHOD_B) == [LooseWildcard()]
    ensures var s3 := Call(st, MY_METHOD_B, a);
      && s3.outcome == Found([Bool(false)])
      && SetupsFor(s3.state, MY_METHOD_B) == [Consume(LooseWildcard())]
      && Valid(s3.state)
      && OthersUnchanged(st, s3.state, MY_METHOD_B)
  {
    MatchesMeans(LooseWildcard(), MY_METHOD_B, a);
    CallWinner(st, MY_METHOD_B, a, 0);
    CallPreservesValid(st, MY_METHOD_B, a);
  }

  /** The second `MyMethodB` call uses the wildcard up; a third call is fatal. */
  lemma LooseWildcardSecondCall(st: Monigote, b: seq<Value>, c: seq<Value>)
    requires Valid(st)
    requires SetupsFor(st, MY_METHOD_B) == [Consume(LooseWildcard())]
    ensures var s4 := Call(st, MY_METHOD_B, b);
      && s4.outcome == Found([Bool(false)])
      && SetupsFor(s4.state, MY_METHOD_B) == []
      && OthersUnchanged(st, s4.state, MY_METHOD_B)
      && Call(s4.state, MY_METHOD_B, c).outcome == Fatal
  {
    MatchesMeans(Consume(LooseWildcard()), MY_METHOD_B, b);
    CallWinner(st, MY_METHOD_B, b, 0);
  }

  /** The state after the loose case's registrations. */
  ghost predicate LooseRegistered(st: Monigote)
  {
    && Valid(st)
    && SetupsFor(st, MY_METHOD) == [LoosePredicate(), LooseExact()]
    && SetupsFor(st, MY_METHOD_B) == [LooseWildcard()]
    && (forall k :: k != MY_METHOD && k != MY_METHOD_B ==> SetupsFor(st, k) == [])
    && CallsFor(st, MY_METHOD) == []
  }

  /**
    Once all four calls have been answered, nothing is pending: the
    predicate setup is persistent and matched, the other two are used up.
   */
  lemma LooseDoneAtEnd(s4: Monigote)
    requires SetupsFor(s4, MY_METHOD) == [Consume(LoosePredicate())]
    requires SetupsFor(s4, MY_METHOD_B) == []
    requires forall k :: k != MY_METHOD && k != MY_METHOD_B ==> SetupsFor(s4, k) == []
    ensures AllDone(s4)
  {
    forall k
      ensures ListDone(SetupsFor(s4, k))
    {
    }
    AllDoneByLookup(s4);
  }

  /** The state after the two `MyMethod` calls of the loose case. */
  ghost predicate LooseAfterMyMethod(st: Monigote)
  {
    && Valid(st)
    && SetupsFor(st, MY_METHOD) == [Consume(LoosePredicate())]
    && SetupsFor(st, MY_METHOD_B) == [LooseWildcard()]
    && (forall k :: k != MY_METHOD && k != MY_METHOD_B ==> SetupsFor(st, k) == [])
    && CallsFor(st, MY_METHOD) == [
         MonigoteCall(MY_METHOD, [Int(1)], [Bool(true)], true, false),
         MonigoteCall(MY_METHOD, [Int(11)], [Bool(false)], true, true)]
  }

  /**
    The two `MyMethod` calls of the loose case: the persistent predicate
    setup registered first does not shadow the exact setup when its
    predicate rejects, and then answers the call it accepts.
   */
  lemma LooseMyMethodCalls(st: Monigote)
    requires LooseRegistered(st)
    ensures var s1 := Call(st, MY_METHOD, [Int(1)]);
      var s2 := Call(s1.state, MY_METHOD, [Int(11)]);
      && s1.outcome == Found([Bool(true)])
      && !AllDone(s1.state)
      && s2.outcome == Found([Bool(false)])
      && LooseAfterMyMethod(s2.state)
  {
    LooseExactCall(st);
    var s1 := Call(st, MY_METHOD, [Int(1)]).state;
    assert SetupsFor(s1, MY_METHOD_B) == [LooseWildcard()];
    assert MY_METHOD_B in s1.setups && !Done(s1.setups[MY_METHOD_B][0]);
    LoosePredicateCall(s1);
  }

  /**
    The two `MyMethodB` calls of the loose case, with any arguments: the
    wildcard with budget 2 answers both, the registry is then done, and a
    further call is fatal.
   */
  lemma LooseMyMethodBCalls(s2: Monigote, a: seq<Value>, b: seq<Value>, c: seq<Value>)
    requires LooseAfterMyMethod(s2)
    ensures var s3 := Call(s2, MY_METHOD_B, a);
      var s4 := Call(s3.state, MY_METHOD_B, b);
      && s3.outcome == Found([Bool(false)])
      && s4.outcome == Found([Bool(false)])
      && AllDone(s4.state)
      && CallsFor(s4.state, MY_METHOD) == CallsFor(s2, MY_METHOD)
      && Call(s4.state, MY_METHOD_B, c).outcome == Fatal
  {
    LooseWildcardFirstCall(s2, a);
    var s3 := Call(s2, MY_METHOD_B, a).state;
    LooseWildcardSecondCall(s3, b, c);
    var s4 := Call(s3, MY_METHOD_B, b).state;
    assert SetupsFor(s4, MY_METHOD) == [Consume(LoosePredicate())];
    LooseDoneAtEnd(s4);
  }

  /**
    The loose case's calls from its registered state: the four calls answer
    as the test asserts, the registry is done once the wildcard with budget
    2 has answered twice, and the history of `MyMethod` holds both calls in
    order.
   */
  lemma LooseCalls(st: Monigote, a: seq<Value>, b: seq<Value>, c: seq<Value>)
    requires LooseRegistered(st)
    ensures var s1 := Call(st, MY_METHOD, [Int(1)]);
      var s2 := Call(s1.state, MY_METHOD, [Int(11)]);
      var s3 := Call(s2.state, MY_METHOD_B, a);
      var s4 := Call(s3.state, MY_METHOD_B, b);
      && s1.outcome == Found([Bool(true)])
      && !AllDone(s1.state)
      && s2.outcome == Found([Bool(false)])
      && s3.outcome == Found([Bool(false)])
      && s4.outcome == Found([Bool(false)])
      && AllDone(s4.state)
      && CallsFor(s4.state, MY_METHOD) == [
           MonigoteCall(MY_METHOD, [Int(1)], [Bool(true)], true, false),
           MonigoteCall(MY_METHOD, [Int(11)], [Bool(false)], true, true)]
      && Call(s4.state, MY_METHOD_B, c).outcome == Fatal
  {
    LooseMyMethodCalls(st);
    var s1 := Call(st, MY_METHOD, [Int(1)]).state;
    LooseMyMethodBCalls(Call(s1, MY_METHOD, [Int(11)]).state, a, b, c);
  }

  /** The loose case end to end, from an empty registry. */
  lemma LooseSetupsScenario(a: seq<Value>, b: seq<Value>, c: seq<Value>)
    ensures var s1 := Call(LooseFixture(), MY_METHOD, [Int(1)]);
      var s2 := Call(s1.state, MY_METHOD, [Int(11)]);
      var s3 := Call(s2.state, MY_METHOD_B, a);
      var s4 := Call(s3.state, MY_METHOD_B, b);
      && s1.outcome == Found([Bool(true)])
      && !AllDone(s1.state)
      && s2.outcome == Found([Bool(false)])
      && s3.outcome == Found([Bool(false)])
      && s4.outcome == Found([Bool(false)])
      && AllDone(s4.state)
      && CallsFor(s4.state, MY_METHOD) == [
           MonigoteCall(MY_METHOD, [Int(1)], [Bool(true)], true, false),
           MonigoteCall(MY_METHOD, [Int(11)], [Bool(false)], true, true)]
      && Call(s4.state, MY_METHOD_B, c).outcome == Fatal
  {
    LooseFixtureShape();
    LooseCalls(LooseFixture(), a, b, c);
  }
}
