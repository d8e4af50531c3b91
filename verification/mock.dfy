/**
  The registry (`Monigote` in monigote.go): per-method ordered lists of
  live setups and per-method call histories, with the operations that
  register, dispatch, reset and verify. Each operation is one atomic
  transition from state to state; the mutex is not modelled.
 */
module Mock {
  import opened Wrappers
  import opened Values
  import opened Setups

  /** One entry of the call history. The call time is not modelled. */
  datatype MonigoteCall = MonigoteCall(
    methodName: string,
    args: seq<Value>,
    reply: seq<Value>,
    found: bool,
    persistent: bool)

  /**
    The registry. `nextId` models the allocator: it is the identity the
    next setup object receives, so no live setup can share it.
   */
  datatype Monigote = Monigote(
    setups: map<string, seq<MonigoteSetup>>,
    calls: map<string, seq<MonigoteCall>>,
    nextId: nat)

  /** What a call hands back: the winner's reply, or the fatal test failure. */
  datatype Outcome = Found(reply: seq<Value>) | Fatal

  /** The state after a call together with its outcome. */
  datatype Step = Step(state: Monigote, outcome: Outcome)

  /** The state after `Setup` together with the setup handed back. */
  datatype Registered = Registered(state: Monigote, setup: MonigoteSetup)

  /** Go map lookup: a missing key reads as a nil (empty) slice. */
  function SetupsFor(st: Monigote, methodName: string): seq<MonigoteSetup>
  {
    if methodName in st.setups then st.setups[methodName] else []
  }

  /** Go map lookup on the history. */
  function CallsFor(st: Monigote, methodName: string): seq<MonigoteCall>
  {
    if methodName in st.calls then st.calls[methodName] else []
  }

  /** Every method other than `methodName` sees the same setups and history. */
  ghost predicate OthersUnchanged(st: Monigote, st': Monigote, methodName: string)
  {
    && (forall k :: k != methodName ==> SetupsFor(st', k) == SetupsFor(st, k))
    && (forall k :: k != methodName ==> CallsFor(st', k) == CallsFor(st, k))
  }

  /** The identities in one list are pairwise distinct. */
  predicate DistinctIds(l: seq<MonigoteSetup>)
  {
    forall i, j :: 0 <= i < j < |l| ==> l[i].id != l[j].id
  }

  /**
    A list of method `k`: only setups for `k`, each a distinct object
    allocated before `nextId`.
   */
  predicate ValidList(k: string, l: seq<MonigoteSetup>, nextId: nat)
  {
    && DistinctIds(l)
    && forall j :: 0 <= j < |l| ==> l[j].methodName == k && l[j].id < nextId
  }

  /** A history of method `k`: only found calls of `k`. */
  predicate ValidHistory(k: string, h: seq<MonigoteCall>)
  {
    forall j :: 0 <= j < |h| ==> h[j].methodName == k && h[j].found
  }

  /** The shape every reachable registry has, read through map lookup. */
  ghost predicate Valid(st: Monigote)
  {
    && (forall k :: ValidList(k, SetupsFor(st, k), st.nextId))
    && (forall k :: ValidHistory(k, CallsFor(st, k)))
  }

  /**
    A transition that changes only method `m`, keeps that method's list and
    history in shape, and does not move the allocator back, keeps the
    registry valid.
   */
  lemma ValidAfterChange(st: Monigote, st': Monigote, m: string)
    requires Valid(st) && st.nextId <= st'.nextId
    requires OthersUnchanged(st, st', m)
    requires ValidList(m, SetupsFor(st', m), st'.nextId)
    requires ValidHistory(m, CallsFor(st', m))
    ensures Valid(st')
  {
    forall k
      ensures ValidList(k, SetupsFor(st', k), st'.nextId)
    {
      if k != m {
        assert ValidList(k, SetupsFor(st, k), st.nextId);
      }
    }
  }

  /** A new registry: nothing registered, nothing called. */
  function NewMonigote(): (st: Monigote)
    ensures Valid(st) && AllDone(st)
    ensures forall k :: SetupsFor(st, k) == [] && CallsFor(st, k) == []
  {
    Monigote(map[], map[], 0)
  }

  /**
    Registers a fresh setup for `methodName` at the end of its list and
    hands it back for configuration.
   */
  function Setup(st: Monigote, methodName: string): (r: Registered)
    ensures SetupsFor(r.state, methodName) == SetupsFor(st, methodName) + [r.setup]
    ensures r.setup.methodName == methodName
    ensures r.setup.times == 1 && r.setup.wasCalled == 0
    ensures r.setup.args.None? && r.setup.matchers.None? && r.setup.reply == []
    ensures OthersUnchanged(st, r.state, methodName)
    ensures r.state.calls == st.calls
    ensures Valid(st) ==> Valid(r.state)
    ensures Valid(st) ==> forall k, i :: 0 <= i < |SetupsFor(st, k)| ==> SetupsFor(st, k)[i].id != r.setup.id
  {
    var s := NewMonigoteSetup(st.nextId).(methodName := methodName);
    var st' := st.(setups := st.setups[methodName := SetupsFor(st, methodName) + [s]],
                   nextId := st.nextId + 1);
    assert Valid(st) ==> Valid(st') by {
      if Valid(st) {
        var l := SetupsFor(st, methodName);
        assert ValidList(methodName, l, st.nextId);
        assert SetupsFor(st', methodName) == l + [s];
        assert forall j :: 0 <= j < |l| ==> (l + [s])[j] == l[j];
        assert ValidList(methodName, l + [s], st'.nextId);
        assert ValidHistory(methodName, CallsFor(st, methodName));
        ValidAfterChange(st, st', methodName);
      }
    }
    assert Valid(st) ==> forall k, i :: 0 <= i < |SetupsFor(st, k)| ==> SetupsFor(st, k)[i].id != s.id by {
      if Valid(st) {
        forall k, i | 0 <= i < |SetupsFor(st, k)|
          ensures SetupsFor(st, k)[i].id != s.id
        {
          assert ValidList(k, SetupsFor(st, k), st.nextId);
        }
      }
    }
    Registered(st', s)
  }

  /** Applies the chain `bs` to every slot of `l` that holds object `id`. */
  function Overwrite(l: seq<MonigoteSetup>, id: nat, bs: seq<Builder>): (r: seq<MonigoteSetup>)
    ensures |r| == |l|
    ensures forall j :: 0 <= j < |l| ==> r[j] == if l[j].id == id then ApplyAll(bs, l[j]) else l[j]
  {
    seq(|l|, j requires 0 <= j < |l| => if l[j].id == id then ApplyAll(bs, l[j]) else l[j])
  }

  /**
    A chain of builder calls made through a pointer `Setup` handed back:
    it mutates the live object the registry holds for `methodName` under
    identity `id`, field by field, so what a `Call` has done to that object
    (its tally, its budget) survives unless the chain sets it. An object no
    longer registered changes nothing.
   */
  function Amend(st: Monigote, methodName: string, id: nat, bs: seq<Builder>): (r: Monigote)
    ensures |SetupsFor(r, methodName)| == |SetupsFor(st, methodName)|
    ensures forall j :: 0 <= j < |SetupsFor(st, methodName)| ==>
      SetupsFor(r, methodName)[j] ==
        if SetupsFor(st, methodName)[j].id == id then ApplyAll(bs, SetupsFor(st, methodName)[j])
        else SetupsFor(st, methodName)[j]
    ensures forall j :: 0 <= j < |SetupsFor(st, methodName)| ==>
      && SetupsFor(r, methodName)[j].id == SetupsFor(st, methodName)[j].id
      && SetupsFor(r, methodName)[j].wasCalled == SetupsFor(st, methodName)[j].wasCalled
    ensures OthersUnchanged(st, r, methodName)
    ensures r.calls == st.calls && r.nextId == st.nextId
    ensures Valid(st) ==> Valid(r)
  {
    if methodName in st.setups then
      var l := st.setups[methodName];
      var r := st.(setups := st.setups[methodName := Overwrite(l, id, bs)]);
      assert Valid(st) ==> Valid(r) by {
        if Valid(st) {
          assert SetupsFor(st, methodName) == l;
          assert ValidList(methodName, l, st.nextId);
          assert SetupsFor(r, methodName) == Overwrite(l, id, bs);
          assert forall j :: 0 <= j < |l| ==> Overwrite(l, id, bs)[j].id == l[j].id;
          assert ValidList(methodName, Overwrite(l, id, bs), st.nextId);
          assert ValidHistory(methodName, CallsFor(st, methodName));
          ValidAfterChange(st, r, methodName);
        }
      }
      r
    else
      st
  }

  /**
    A chain applied through the pointer at once is the same as its builder
    calls made one after another.
   */
  lemma AmendChain(st: Monigote, methodName: string, id: nat, bs: seq<Builder>, cs: seq<Builder>)
    ensures Amend(st, methodName, id, bs + cs) == Amend(Amend(st, methodName, id, bs), methodName, id, cs)
  {
    if methodName in st.setups {
      var l := st.setups[methodName];
      var once := Overwrite(l, id, bs + cs);
      var twice := Overwrite(Overwrite(l, id, bs), id, cs);
      forall j | 0 <= j < |l|
        ensures once[j] == twice[j]
      {
        ApplyAllAppend(bs, cs, l[j]);
      }
      assert once == twice;
      assert Amend(st, methodName, id, bs).setups[methodName] == Overwrite(l, id, bs);
    }
  }

  /**
    Configuring the setup just registered (the usual chained use) leaves
    the old list followed by the configured setup.
   */
  lemma ConfigureRegistered(st: Monigote, methodName: string, bs: seq<Builder>)
    requires Valid(st)
    ensures var r := Setup(st, methodName);
      SetupsFor(Amend(r.state, methodName, r.setup.id, bs), methodName) ==
        SetupsFor(st, methodName) + [ApplyAll(bs, r.setup)]
    ensures var r := Setup(st, methodName);
      Valid(Amend(r.state, methodName, r.setup.id, bs))
  {
    var r := Setup(st, methodName);
    var l := SetupsFor(st, methodName);
    var l' := SetupsFor(Amend(r.state, methodName, r.setup.id, bs), methodName);
    assert SetupsFor(r.state, methodName) == l + [r.setup];
    forall j | 0 <= j < |l'|
      ensures l'[j] == (l + [ApplyAll(bs, r.setup)])[j]
    {
      if j < |l| {
        assert l[j].id != r.setup.id;
        assert (l + [r.setup])[j] == l[j];
      }
    }
  }

  /**
    `removeSetup`: drops the first slot, in the setup's own method list,
    that holds the given object; a list without it is left as it is.
   */
  function RemoveSetup(l: seq<MonigoteSetup>, id: nat): (r: seq<MonigoteSetup>)
    ensures (forall j :: 0 <= j < |l| ==> l[j].id != id) ==> r == l
    ensures (exists j :: 0 <= j < |l| && l[j].id == id) ==> |r| == |l| - 1
  {
    if |l| == 0 then []
    else if l[0].id == id then l[1..]
    else
      assert forall j :: 1 <= j < |l| ==> l[j] == l[1..][j - 1];
      [l[0]] + RemoveSetup(l[1..], id)
  }

  /**
    When slot `i` holds the first occurrence of the object, `removeSetup`
    removes exactly that slot and keeps the order of the others.
   */
  lemma {:induction false} RemoveSetupAt(l: seq<MonigoteSetup>, i: nat, id: nat)
    requires i < |l| && l[i].id == id
    requires forall j :: 0 <= j < i ==> l[j].id != id
    ensures RemoveSetup(l, id) == l[..i] + l[i + 1..]
    decreases i
  {
    if i > 0 {
      assert l[1..][i - 1] == l[i];
      assert forall j :: 0 <= j < i - 1 ==> l[1..][j] == l[j + 1];
      RemoveSetupAt(l[1..], i - 1, id);
      assert l[1..][..i - 1] + l[1..][i..] == l[1..i] + l[i + 1..];
      assert [l[0]] + (l[1..i] + l[i + 1..]) == l[..i] + l[i + 1..];
    }
  }

  /** `removeSetup` at the registry level: looks the list up by the setup's method. */
  function RemoveSetupFrom(st: Monigote, s: MonigoteSetup): (r: Monigote)
    ensures SetupsFor(r, s.methodName) == RemoveSetup(SetupsFor(st, s.methodName), s.id)
    ensures OthersUnchanged(st, r, s.methodName)
    ensures r.calls == st.calls && r.nextId == st.nextId
  {
    if s.methodName in st.setups then
      var r := st.(setups := st.setups[s.methodName := RemoveSetup(st.setups[s.methodName], s.id)]);
      assert SetupsFor(r, s.methodName) == RemoveSetup(SetupsFor(st, s.methodName), s.id);
      assert forall k :: k != s.methodName ==> SetupsFor(r, k) == SetupsFor(st, k);
      r
    else
      st
  }

  /** The scan of `Call`: the first setup, in registration order, that matches. */
  function FirstMatch(l: seq<MonigoteSetup>, methodName: string, args: seq<Value>): (r: Option<nat>)
    ensures r.Some? ==> r.value < |l| && Matches(l[r.value], methodName, args)
    ensures r.Some? ==> forall j :: 0 <= j < r.value ==> !Matches(l[j], methodName, args)
    ensures r.None? <==> forall j :: 0 <= j < |l| ==> !Matches(l[j], methodName, args)
  {
    if |l| == 0 then None
    else if Matches(l[0], methodName, args) then Some(0)
    else
      match FirstMatch(l[1..], methodName, args)
      case None => None
      case Some(i) => Some(i + 1)
  }

  /**
    The bookkeeping of a match on slot `i`: the winner is consumed in
    place and, once a positive budget has reached 0, removed through
    `removeSetup`.
   */
  function Commit(st: Monigote, methodName: string, i: nat): (r: Monigote)
    requires i < |SetupsFor(st, methodName)|
    requires SetupsFor(st, methodName)[i].methodName == methodName
    ensures OthersUnchanged(st, r, methodName)
    ensures |SetupsFor(r, methodName)| <= |SetupsFor(st, methodName)|
    ensures r.calls == st.calls && r.nextId == st.nextId
  {
    var l := SetupsFor(st, methodName);
    var consumed := Consume(l[i]);
    var updated := st.(setups := st.setups[methodName := l[i := consumed]]);
    assert SetupsFor(updated, methodName) == l[i := consumed];
    assert OthersUnchanged(st, updated, methodName);
    if l[i].times > 0 && consumed.times == 0 then RemoveSetupFrom(updated, consumed) else updated
  }

  /** Appends one record to the history of its method. */
  function Record(st: Monigote, c: MonigoteCall): (r: Monigote)
    ensures CallsFor(r, c.methodName) == CallsFor(st, c.methodName) + [c]
    ensures OthersUnchanged(st, r, c.methodName)
    ensures r.setups == st.setups && r.nextId == st.nextId
  {
    st.(calls := st.calls[c.methodName := CallsFor(st, c.methodName) + [c]])
  }

  /**
    `Call`: the first matching setup wins; it is tallied and its budget
    consumed, it is removed once a positive budget reaches 0, and a found
    record is appended to the method's history. With no match the call is
    fatal and nothing changes.
   */
  function Call(st: Monigote, methodName: string, args: seq<Value>): (r: Step)
    ensures r.outcome.Fatal? <==>
      forall j :: 0 <= j < |SetupsFor(st, methodName)| ==> !Matches(SetupsFor(st, methodName)[j], methodName, args)
    ensures r.outcome.Fatal? ==> r.state == st
    ensures r.outcome.Found? ==>
      var h := CallsFor(st, methodName);
      var h' := CallsFor(r.state, methodName);
      && |h'| == |h| + 1
      && h'[..|h|] == h
      && h'[|h|].methodName == methodName
      && h'[|h|].args == args
      && h'[|h|].found
      && h'[|h|].reply == r.outcome.reply
    ensures r.outcome.Found? ==> |SetupsFor(r.state, methodName)| <= |SetupsFor(st, methodName)|
    ensures OthersUnchanged(st, r.state, methodName)
    ensures r.state.nextId == st.nextId
  {
    var l := SetupsFor(st, methodName);
    match FirstMatch(l, methodName, args)
    case None => Step(st, Fatal)
    case Some(i) =>
      var winner := l[i];
      var record := MonigoteCall(methodName, args, winner.reply, true, winner.times < 0);
      Step(Record(Commit(st, methodName, i), record), Found(winner.reply))
  }

  /** The winner of a call: it matches and no earlier setup does. */
  predicate IsWinner(l: seq<MonigoteSetup>, i: nat, methodName: string, args: seq<Value>)
  {
    && i < |l|
    && Matches(l[i], methodName, args)
    && forall j :: 0 <= j < i ==> !Matches(l[j], methodName, args)
  }

  /**
    What `Commit` does to the method's list when the list holds distinct
    objects: a budget of 1 removes slot `i` and keeps the order of the
    rest; any other budget leaves the consumed winner in slot `i`.
   */
  lemma CommitShape(st: Monigote, methodName: string, i: nat)
    requires i < |SetupsFor(st, methodName)|
    requires SetupsFor(st, methodName)[i].methodName == methodName
    requires DistinctIds(SetupsFor(st, methodName))
    ensures var l := SetupsFor(st, methodName);
      && (l[i].times == 1 ==> SetupsFor(Commit(st, methodName, i), methodName) == l[..i] + l[i + 1..])
      && (l[i].times != 1 ==> SetupsFor(Commit(st, methodName, i), methodName) == l[i := Consume(l[i])])
  {
    var l := SetupsFor(st, methodName);
    var c := Consume(l[i]);
    if l[i].times == 1 {
      var l1 := l[i := c];
      RemoveSetupAt(l1, i, c.id);
      assert l1[..i] == l[..i] && l1[i + 1..] == l[i + 1..];
    }
  }

  /**
    Removing slot `i`, or consuming the setup in it, keeps a list of method
    `k` in shape.
   */
  lemma WinnerStepKeepsList(k: string, l: seq<MonigoteSetup>, l': seq<MonigoteSetup>, i: nat, nextId: nat)
    requires ValidList(k, l, nextId) && i < |l|
    requires l' == l[..i] + l[i + 1..] || l' == l[i := Consume(l[i])]
    ensures ValidList(k, l', nextId)
  {
    if l' == l[..i] + l[i + 1..] {
      assert forall j :: 0 <= j < |l'| ==> l'[j] == (if j < i then l[j] else l[j + 1]);
    } else {
      assert forall j :: 0 <= j < |l'| ==> l'[j].id == l[j].id && l'[j].methodName == l[j].methodName;
    }
  }

  /** `Commit` keeps the registry in the reachable shape. */
  lemma CommitPreservesValid(st: Monigote, methodName: string, i: nat)
    requires Valid(st)
    requires i < |SetupsFor(st, methodName)|
    requires SetupsFor(st, methodName)[i].methodName == methodName
    ensures Valid(Commit(st, methodName, i))
  {
    var l := SetupsFor(st, methodName);
    var r := Commit(st, methodName, i);
    assert ValidList(methodName, l, st.nextId);
    CommitShape(st, methodName, i);
    WinnerStepKeepsList(methodName, l, SetupsFor(r, methodName), i, st.nextId);
    assert ValidHistory(methodName, CallsFor(st, methodName));
    ValidAfterChange(st, r, methodName);
  }

  /** Appending a found record of its own method keeps the registry valid. */
  lemma RecordPreservesValid(st: Monigote, c: MonigoteCall)
    requires Valid(st) && c.found
    ensures Valid(Record(st, c))
  {
    var r := Record(st, c);
    var h := CallsFor(st, c.methodName);
    assert ValidHistory(c.methodName, h);
    assert forall j :: 0 <= j < |h| ==> CallsFor(r, c.methodName)[j] == h[j];
    assert ValidList(c.methodName, SetupsFor(st, c.methodName), st.nextId);
    ValidAfterChange(st, r, c.methodName);
  }

  /**
    The effect of a call on its winner: the reply returned is the winner's,
    the record is persistent exactly when the winner's budget is negative,
    a winner with budget 1 is removed with the order of the rest kept, and
    any other winner stays in place with its tally raised and a positive
    budget lowered by one.
   */
  lemma CallWinner(st: Monigote, methodName: string, args: seq<Value>, i: nat)
    requires Valid(st)
    requires IsWinner(SetupsFor(st, methodName), i, methodName, args)
    ensures var l := SetupsFor(st, methodName);
      var r := Call(st, methodName, args);
      && r.outcome == Found(l[i].reply)
      && CallsFor(r.state, methodName)[|CallsFor(st, methodName)|].persistent == (l[i].times < 0)
      && (l[i].times == 1 ==> SetupsFor(r.state, methodName) == l[..i] + l[i + 1..])
      && (l[i].times != 1 ==> SetupsFor(r.state, methodName) == l[i := Consume(l[i])])
  {
    var l := SetupsFor(st, methodName);
    var fm := FirstMatch(l, methodName, args);
    assert fm == Some(i) by {
      if fm.Some? {
        if fm.value < i {
        } else if fm.value > i {
        }
      }
    }
    assert ValidList(methodName, l, st.nextId);
    CommitShape(st, methodName, i);
  }

  /** A call keeps the registry in the reachable shape. */
  lemma CallPreservesValid(st: Monigote, methodName: string, args: seq<Value>)
    requires Valid(st)
    ensures Valid(Call(st, methodName, args).state)
  {
    var l := SetupsFor(st, methodName);
    var fm := FirstMatch(l, methodName, args);
    if fm.Some? {
      var i := fm.value;
      CommitPreservesValid(st, methodName, i);
      RecordPreservesValid(Commit(st, methodName, i),
        MonigoteCall(methodName, args, l[i].reply, true, l[i].times < 0));
    }
  }

  /** One invocation of the double: a method name and its arguments. */
  datatype Invocation = Invocation(methodName: string, args: seq<Value>)

  /**
    A test's calls in order. `Fatalf` ends the test, so a fatal call is the
    last one that happens.
   */
  function Run(st: Monigote, script: seq<Invocation>): (r: Monigote)
    ensures r.nextId == st.nextId
    ensures Valid(st) ==> Valid(r)
    ensures forall k :: CallsFor(st, k) <= CallsFor(r, k)
    decreases |script|
  {
    if |script| == 0 then st
    else
      var step := Call(st, script[0].methodName, script[0].args);
      assert Valid(st) ==> Valid(step.state) by {
        if Valid(st) {
          CallPreservesValid(st, script[0].methodName, script[0].args);
        }
      }
      assert forall k :: CallsFor(st, k) <= CallsFor(step.state, k);
      if step.outcome.Fatal? then step.state else Run(step.state, script[1..])
  }

  /** The object `id` sits in `l` with budget `t`. */
  ghost predicate ListHasBudget(l: seq<MonigoteSetup>, id: nat, t: int)
  {
    exists j :: 0 <= j < |l| && l[j].id == id && l[j].times == t
  }

  /** The object `id` is registered under `k` with budget `t`. */
  ghost predicate HasBudget(st: Monigote, k: string, id: nat, t: int)
  {
    ListHasBudget(SetupsFor(st, k), id, t)
  }

  /**
    Whichever slot wins, what a match does to the list keeps a setup with
    a budget of 0 or below, unchanged.
   */
  lemma WinnerStepKeepsNonPositive(l: seq<MonigoteSetup>, l': seq<MonigoteSetup>, i: nat, id: nat, t: int)
    requires t <= 0 && i < |l| && ListHasBudget(l, id, t)
    requires l[i].times == 1 ==> l' == l[..i] + l[i + 1..]
    requires l[i].times != 1 ==> l' == l[i := Consume(l[i])]
    ensures ListHasBudget(l', id, t)
  {
    var j :| 0 <= j < |l| && l[j].id == id && l[j].times == t;
    if l[i].times == 1 {
      var j' := if j < i then j else j - 1;
      assert l'[j'] == l[j];
    } else {
      assert l'[j].id == id && l'[j].times == t;
    }
  }

  /**
    A setup whose budget is 0 or negative is never removed and its budget
    never changes, whatever call is made.
   */
  lemma CallKeepsNonPositiveBudget(st: Monigote, methodName: string, args: seq<Value>, k: string, id: nat, t: int)
    requires Valid(st) && t <= 0
    requires HasBudget(st, k, id, t)
    ensures HasBudget(Call(st, methodName, args).state, k, id, t)
  {
    var r := Call(st, methodName, args);
    var l := SetupsFor(st, k);
    if k == methodName && r.outcome.Found? {
      var i := FirstMatch(l, methodName, args).value;
      CallWinner(st, methodName, args, i);
      WinnerStepKeepsNonPositive(l, SetupsFor(r.state, k), i, id, t);
    } else {
      assert SetupsFor(r.state, k) == l;
    }
  }

  /** A registered setup whose budget is not -1 keeps the registry from being done. */
  lemma PendingBudgetNotDone(st: Monigote, k: string, id: nat, t: int)
    requires HasBudget(st, k, id, t) && t != -1
    ensures !AllDone(st)
  {
    var j :| 0 <= j < |SetupsFor(st, k)| && SetupsFor(st, k)[j].id == id && SetupsFor(st, k)[j].times == t;
    assert k in st.setups && !Done(st.setups[k][j]);
  }

  /**
    `ReplyTimes(0)` and any negative budget other than -1 make a setup that
    no sequence of calls removes and that keeps `IsDone` false forever.
   */
  lemma {:induction false} NonPositiveBudgetNeverDone(st: Monigote, script: seq<Invocation>, k: string, id: nat, t: int)
    requires Valid(st) && t <= 0 && t != -1
    requires HasBudget(st, k, id, t)
    ensures HasBudget(Run(st, script), k, id, t)
    ensures !AllDone(Run(st, script))
    decreases |script|
  {
    if |script| > 0 {
      CallKeepsNonPositiveBudget(st, script[0].methodName, script[0].args, k, id, t);
      CallPreservesValid(st, script[0].methodName, script[0].args);
      var step := Call(st, script[0].methodName, script[0].args);
      if step.outcome.Found? {
        NonPositiveBudgetNeverDone(step.state, script[1..], k, id, t);
      }
    }
    PendingBudgetNotDone(Run(st, script), k, id, t);
  }

  /** `Reset`: both maps empty. */
  function Reset(st: Monigote): (r: Monigote)
    ensures forall k :: SetupsFor(r, k) == [] && CallsFor(r, k) == []
    ensures Valid(r) && AllDone(r)
  {
    Monigote(map[], map[], st.nextId)
  }

  /** Every setup in the list is done. */
  predicate ListDone(l: seq<MonigoteSetup>)
  {
    forall i :: 0 <= i < |l| ==> Done(l[i])
  }

  /** What `IsDone` reports: every setup still registered is done. */
  predicate AllDone(st: Monigote)
  {
    forall k :: k in st.setups ==> ListDone(st.setups[k])
  }

  /** Done-ness read through Go map lookup: a missing method has nothing pending. */
  lemma AllDoneByLookup(st: Monigote)
    ensures AllDone(st) <==> forall k :: ListDone(SetupsFor(st, k))
  {
    if AllDone(st) {
      forall k
        ensures ListDone(SetupsFor(st, k))
      {
      }
    }
    if forall k :: ListDone(SetupsFor(st, k)) {
      forall k | k in st.setups
        ensures ListDone(st.setups[k])
      {
        assert SetupsFor(st, k) == st.setups[k];
      }
    }
  }

  /**
    `IsDone`: visits every method's list in some order and every setup in
    it, flagging any that is not done.
   */
  method IsDone(st: Monigote) returns (done: bool)
    ensures done <==> forall k, i :: 0 <= i < |SetupsFor(st, k)| ==>
      SetupsFor(st, k)[i].times == -1 && SetupsFor(st, k)[i].wasCalled > 0
    ensures done == AllDone(st)
  {
    var err := false;
    var pending := st.setups.Keys;
    while pending != {}
      invariant pending <= st.setups.Keys
      invariant !err <==> forall k :: k in st.setups && k !in pending ==> ListDone(st.setups[k])
      decreases pending
    {
      var k :| k in pending;
      var l := st.setups[k];
      var j := 0;
      var listErr := false;
      while j < |l|
        invariant 0 <= j <= |l|
        invariant !listErr <==> forall i :: 0 <= i < j ==> Done(l[i])
      {
        if !Done(l[j]) {
          listErr := true;
        }
        j := j + 1;
      }
      err := err || listErr;
      pending := pending - {k};
    }
    done := !err;
    assert forall k :: SetupsFor(st, k) == if k in st.setups then st.setups[k] else [];
  }
}
