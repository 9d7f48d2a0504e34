/** Racing look-ups in the keystore's cache of signers. */
module Keystore {
  import opened Wrappers
  import opened Keys
  import opened Constraints
  import opened Order

  /** Where one call stands between its locked sections; signers are named by their allocation. */
  datatype Call =
    | Selected(alg: Alg, key: Jwk, kid: string)
    | Missed(alg: Alg, key: Jwk, kid: string)
    | Built(alg: Alg, key: Jwk, kid: string, signer: nat)

  datatype Answer = Answer(alg: Alg, signer: Option<(string, nat)>)

  datatype State = State(
    cache: map<(string, Alg), nat>,
    signers: seq<Signer>,
    calls: map<nat, Call>,
    answers: seq<Answer>)

  /** A call begins, or call `id` takes its next step. */
  datatype Event = Begin(id: nat, alg: Alg) | Advance(id: nat)

  const Fresh := State(map[], [], map[], [])

  function Finish(s: State, id: nat, alg: Alg, signer: Option<(string, nat)>): State {
    s.(calls := s.calls - {id}, answers := s.answers + [Answer(alg, signer)])
  }

  ghost function Step(keys: seq<Jwk>, s: State, e: Event): State {
    match e
    case Begin(id, alg) =>
      if id in s.calls then s
      else
        var key := SigningKey(alg, keys);
        if key.None? || key.value.kid.None? then Finish(s, id, alg, None)
        else s.(calls := s.calls[id := Selected(alg, key.value, key.value.kid.value)])
    case Advance(id) =>
      if id !in s.calls then s else AdvanceCall(s, id, s.calls[id])
  }

  function AdvanceCall(s: State, id: nat, c: Call): State {
    var slot := (c.kid, c.alg);
    match c
    case Selected(alg, key, kid) =>
      if slot in s.cache then Finish(s, id, alg, Some((kid, s.cache[slot])))
      else s.(calls := s.calls[id := Missed(alg, key, kid)])
    case Missed(alg, key, kid) =>
      var signer := TryBuildSigner(key.params, alg);
      if signer.None? then Finish(s, id, alg, None)
      else s.(signers := s.signers + [signer.value], calls := s.calls[id := Built(alg, key, kid, |s.signers|)])
    case Built(alg, key, kid, signer) =>
      var cache := if slot in s.cache then s.cache else s.cache[slot := signer];
      Finish(s.(cache := cache), id, alg, Some((kid, cache[slot])))
  }

  ghost function Run(keys: seq<Jwk>, events: seq<Event>): State {
    if events == [] then Fresh
    else Step(keys, Run(keys, events[..|events| - 1]), events[|events| - 1])
  }

  /** The key for an algorithm, when it is there and has an identifier. */
  ghost predicate Answerable(keys: seq<Jwk>, alg: Alg) {
    SigningKey(alg, keys).Some? && SigningKey(alg, keys).value.kid.Some?
  }

  /** An allocated signer that is what a fresh build for the algorithm would give. */
  ghost predicate Faithful(keys: seq<Jwk>, s: State, kid: string, alg: Alg, signer: nat) {
    && Answerable(keys, alg)
    && kid == SigningKey(alg, keys).value.kid.value
    && signer < |s.signers|
    && s.signers[signer] == Signer(alg, SigningKey(alg, keys).value.params.secret)
  }

  ghost predicate GoodCall(keys: seq<Jwk>, s: State, c: Call) {
    && Answerable(keys, c.alg)
    && c.key == SigningKey(c.alg, keys).value
    && c.kid == c.key.kid.value
    && (c.Built? ==> Faithful(keys, s, c.kid, c.alg, c.signer))
  }

  ghost predicate GoodAnswer(keys: seq<Jwk>, s: State, a: Answer) {
    && (a.signer.None? <==> !Answerable(keys, a.alg))
    && (a.signer.Some? ==> (a.signer.value.0, a.alg) in s.cache && s.cache[(a.signer.value.0, a.alg)] == a.signer.value.1)
  }

  ghost predicate Valid(keys: seq<Jwk>, s: State) {
    && (forall slot :: slot in s.cache ==> Faithful(keys, s, slot.0, slot.1, s.cache[slot]))
    && (forall id :: id in s.calls ==> GoodCall(keys, s, s.calls[id]))
    && (forall a :: a in s.answers ==> GoodAnswer(keys, s, a))
  }

  /** Nothing that was cached or allocated is replaced or dropped. */
  ghost predicate Extends(s: State, t: State) {
    && s.signers <= t.signers
    && (forall slot :: slot in s.cache ==> slot in t.cache && t.cache[slot] == s.cache[slot])
    && s.answers <= t.answers
  }

  lemma FinishKeeps(keys: seq<Jwk>, s: State, id: nat, alg: Alg, signer: Option<(string, nat)>)
    requires Valid(keys, s) && GoodAnswer(keys, s, Answer(alg, signer))
    ensures Valid(keys, Finish(s, id, alg, signer)) && Extends(s, Finish(s, id, alg, signer))
  {
    var t := Finish(s, id, alg, signer);
    forall slot | slot in t.cache ensures Faithful(keys, t, slot.0, slot.1, t.cache[slot]) {
      assert Faithful(keys, s, slot.0, slot.1, s.cache[slot]);
    }
    forall i | i in t.calls ensures GoodCall(keys, t, t.calls[i]) {
      assert GoodCall(keys, s, s.calls[i]);
    }
    forall a | a in t.answers ensures GoodAnswer(keys, t, a) {
      assert GoodAnswer(keys, s, a);
    }
  }

  lemma MoveKeeps(keys: seq<Jwk>, s: State, id: nat, c: Call)
    requires Valid(keys, s) && GoodCall(keys, s, c)
    ensures Valid(keys, s.(calls := s.calls[id := c]))
  {
    var t := s.(calls := s.calls[id := c]);
    forall slot | slot in t.cache ensures Faithful(keys, t, slot.0, slot.1, t.cache[slot]) {
      assert Faithful(keys, s, slot.0, slot.1, s.cache[slot]);
    }
    forall i | i in t.calls ensures GoodCall(keys, t, t.calls[i]) {
      assert i != id ==> GoodCall(keys, s, s.calls[i]);
    }
    forall a | a in t.answers ensures GoodAnswer(keys, t, a) {
      assert GoodAnswer(keys, s, a);
    }
  }

  lemma AllocateKeeps(keys: seq<Jwk>, s: State, signer: Signer)
    requires Valid(keys, s)
    ensures Valid(keys, s.(signers := s.signers + [signer]))
  {
    var t := s.(signers := s.signers + [signer]);
    forall slot | slot in t.cache ensures Faithful(keys, t, slot.0, slot.1, t.cache[slot]) {
      assert Faithful(keys, s, slot.0, slot.1, s.cache[slot]);
    }
    forall i | i in t.calls ensures GoodCall(keys, t, t.calls[i]) {
      assert GoodCall(keys, s, s.calls[i]);
    }
    forall a | a in t.answers ensures GoodAnswer(keys, t, a) {
      assert GoodAnswer(keys, s, a);
    }
  }

  lemma CacheKeeps(keys: seq<Jwk>, s: State, slot: (string, Alg), signer: nat)
    requires Valid(keys, s) && slot !in s.cache && Faithful(keys, s, slot.0, slot.1, signer)
    ensures Valid(keys, s.(cache := s.cache[slot := signer]))
  {
    var t := s.(cache := s.cache[slot := signer]);
    forall x | x in t.cache ensures Faithful(keys, t, x.0, x.1, t.cache[x]) {
      assert x != slot ==> Faithful(keys, s, x.0, x.1, s.cache[x]);
    }
    forall i | i in t.calls ensures GoodCall(keys, t, t.calls[i]) {
      assert GoodCall(keys, s, s.calls[i]);
    }
    forall a | a in t.answers ensures GoodAnswer(keys, t, a) {
      assert GoodAnswer(keys, s, a);
    }
  }

  lemma AdvanceKeeps(keys: seq<Jwk>, s: State, id: nat)
    requires Valid(keys, s) && id in s.calls
    ensures Valid(keys, AdvanceCall(s, id, s.calls[id])) && Extends(s, AdvanceCall(s, id, s.calls[id]))
  {
    var c := s.calls[id];
    var slot := (c.kid, c.alg);
    assert GoodCall(keys, s, c);
    match c
    case Selected(alg, key, kid) =>
      if slot in s.cache {
        FinishKeeps(keys, s, id, alg, Some((kid, s.cache[slot])));
      } else {
        MoveKeeps(keys, s, id, Missed(alg, key, kid));
      }
    case Missed(alg, key, kid) =>
      SigningKeyCanSign(keys, alg);
      var signer := TryBuildSigner(key.params, alg).value;
      AllocateKeeps(keys, s, signer);
      MoveKeeps(keys, s.(signers := s.signers + [signer]), id, Built(alg, key, kid, |s.signers|));
    case Built(alg, key, kid, signer) =>
      if slot in s.cache {
        FinishKeeps(keys, s, id, alg, Some((kid, s.cache[slot])));
      } else {
        CacheKeeps(keys, s, slot, signer);
        FinishKeeps(keys, s.(cache := s.cache[slot := signer]), id, alg, Some((kid, signer)));
      }
  }

  lemma StepKeeps(keys: seq<Jwk>, s: State, e: Event)
    requires Valid(keys, s)
    ensures Valid(keys, Step(keys, s, e)) && Extends(s, Step(keys, s, e))
  {
    match e
    case Advance(id) =>
      if id in s.calls { AdvanceKeeps(keys, s, id); }
    case Begin(id, alg) =>
      if id in s.calls {
      } else if !Answerable(keys, alg) {
        FinishKeeps(keys, s, id, alg, None);
      } else {
        var key := SigningKey(alg, keys).value;
        MoveKeeps(keys, s, id, Selected(alg, key, key.kid.value));
      }
  }

  lemma {:induction false} RunKeeps(keys: seq<Jwk>, events: seq<Event>)
    ensures Valid(keys, Run(keys, events))
  {
    if events != [] {
      RunKeeps(keys, events[..|events| - 1]);
      StepKeeps(keys, Run(keys, events[..|events| - 1]), events[|events| - 1]);
    }
  }

  lemma ExtendsSelf(s: State)
    ensures Extends(s, s)
  {
  }

  lemma ExtendsTransitive(s: State, t: State, u: State)
    requires Extends(s, t) && Extends(t, u)
    ensures Extends(s, u)
  {
  }

  /** What a run has cached, built and answered, every longer run has too. */
  lemma {:induction false} EntriesNeverChange(keys: seq<Jwk>, events: seq<Event>, more: seq<Event>)
    ensures Extends(Run(keys, events), Run(keys, events + more))
  {
    hide Run, Step, Valid, Extends;
    if more == [] {
      assert events + more == events;
      ExtendsSelf(Run(keys, events));
    } else {
      var front, last := more[..|more| - 1], more[|more| - 1];
      EntriesNeverChange(keys, events, front);
      RunKeeps(keys, events + front);
      StepKeeps(keys, Run(keys, events + front), last);
      RunPush(keys, events + front, last);
      assert events + more == (events + front) + [last];
      ExtendsTransitive(Run(keys, events), Run(keys, events + front), Run(keys, events + more));
    }
  }

  lemma RunPush(keys: seq<Jwk>, events: seq<Event>, e: Event)
    ensures Run(keys, events + [e]) == Step(keys, Run(keys, events), e)
  {
    assert (events + [e])[..|events|] == events;
  }

  /**
   * However calls interleave: an answer is missing exactly when no key with an identifier is
   * selected for the algorithm; otherwise it is the signer a fresh build would give; and all
   * answers for one algorithm are the very same allocation.
   */
  lemma AnswersAgree(keys: seq<Jwk>, events: seq<Event>, a: Answer, b: Answer)
    requires a in Run(keys, events).answers && b in Run(keys, events).answers
    ensures a.signer.None? <==> !Answerable(keys, a.alg)
    ensures a.signer.Some? ==>
              && a.signer.value.1 < |Run(keys, events).signers|
              && var key := SigningKey(a.alg, keys).value;
                 && key.kid == Some(a.signer.value.0)
                 && Some(Run(keys, events).signers[a.signer.value.1]) == TryBuildSigner(key.params, a.alg)
    ensures a.alg == b.alg ==> a == b
  {
    var s := Run(keys, events);
    RunKeeps(keys, events);
    assert GoodAnswer(keys, s, a) && GoodAnswer(keys, s, b);
    if Answerable(keys, a.alg) {
      SigningKeyCanSign(keys, a.alg);
      var slot := (a.signer.value.0, a.alg);
      assert Faithful(keys, s, slot.0, slot.1, s.cache[slot]);
    }
    if a.alg == b.alg && b.signer.Some? {
      var slot := (b.signer.value.0, b.alg);
      assert Faithful(keys, s, slot.0, slot.1, s.cache[slot]);
    }
  }

  lemma NamelessFits(k: Jwk)
    requires k.params.EcP256? && k.use.None? && k.ops.None? && k.alg.None?
    ensures ValidKey(k) && !Rejected(ToSign(ES256), k) && Score(ToSign(ES256), k) == 0
  {
    var positive := set c | c in ToSign(ES256) && Decide(c, k).Positive?;
    assert positive == {};
  }

  lemma {:induction false} AllFit(keys: seq<Jwk>)
    requires forall i :: 0 <= i < |keys| ==>
               keys[i].params.EcP256? && keys[i].use.None? && keys[i].ops.None? && keys[i].alg.None?
    ensures ValidOnly(keys) == keys
    ensures Eligible(ToSign(ES256), keys) == keys
    ensures WithKey(keys, ByScore(ToSign(ES256)), 0) == keys
  {
    if keys != [] {
      var last := |keys| - 1;
      AllFit(keys[..last]);
      NamelessFits(keys[last]);
      assert keys == keys[..last] + [keys[last]];
    }
  }

  lemma LastOfEqualsSigns(keys: seq<Jwk>)
    requires |keys| > 0
    requires forall i :: 0 <= i < |keys| ==>
               keys[i].params.EcP256? && keys[i].use.None? && keys[i].ops.None? && keys[i].alg.None?
    ensures SigningKey(ES256, keys) == Some(keys[|keys| - 1])
  {
    AllFit(keys);
    NamelessFits(keys[0]);
    BestKeyIsBest(ToSign(ES256), keys);
    var best := SigningKey(ES256, keys).value;
    var i :| 0 <= i < |keys| && keys[i] == best;
    NamelessFits(keys[i]);
    BestKeyIsLast(ToSign(ES256), keys);
  }

  /** A key without an identifier, given after a named one that is as good, hides it: there is no signer. */
  lemma NamelessKeyHides(kid: string, a: nat, b: nat)
    ensures var named, nameless := Jwk(EcP256(a), None, None, None, Some(kid)), Jwk(EcP256(b), None, None, None, None);
            && Answerable([named], ES256) && TryBuildSigner(named.params, ES256).Some?
            && !Answerable([named, nameless], ES256)
            && Run([named, nameless], [Begin(0, ES256)]).answers == [Answer(ES256, None)]
  {
    var named, nameless := Jwk(EcP256(a), None, None, None, Some(kid)), Jwk(EcP256(b), None, None, None, None);
    LastOfEqualsSigns([named]);
    LastOfEqualsSigns([named, nameless]);
    RunPush([named, nameless], [], Begin(0, ES256));
    assert [] + [Begin(0, ES256)] == [Begin(0, ES256)];
  }

  /** A call that nothing interrupts. */
  ghost function Alone(keys: seq<Jwk>, s: State, id: nat, alg: Alg): State {
    Step(keys, Step(keys, Step(keys, Step(keys, s, Begin(id, alg)), Advance(id)), Advance(id)), Advance(id))
  }

  /**
   * On its own a call ends with one answer, and the signer it answers with is cached: the one
   * that was cached before, or else the next one built.
   */
  lemma CallAlone(keys: seq<Jwk>, s: State, id: nat, alg: Alg)
    requires id !in s.calls
    ensures !Answerable(keys, alg) ==> Alone(keys, s, id, alg) == s.(answers := s.answers + [Answer(alg, None)])
    ensures Answerable(keys, alg) ==>
              var key := SigningKey(alg, keys).value;
              var slot := (key.kid.value, alg);
              var t := Alone(keys, s, id, alg);
              && t.calls == s.calls && slot in t.cache
              && t.answers == s.answers + [Answer(alg, Some((key.kid.value, t.cache[slot])))]
              && if slot in s.cache then t.cache == s.cache && t.signers == s.signers
                 else t.cache == s.cache[slot := |s.signers|] && t.signers == s.signers + [Signer(alg, key.params.secret)]
  {
    if Answerable(keys, alg) {
      AnswerableAlone(keys, s, id, alg);
    } else {
      assert s.calls - {id} == s.calls;
    }
  }

  lemma AnswerableAlone(keys: seq<Jwk>, s: State, id: nat, alg: Alg)
    requires id !in s.calls && Answerable(keys, alg)
    ensures var key := SigningKey(alg, keys).value;
            var slot := (key.kid.value, alg);
            var t := Alone(keys, s, id, alg);
            if slot in s.cache then t == s.(answers := s.answers + [Answer(alg, Some((key.kid.value, s.cache[slot])))])
            else t == s.(cache := s.cache[slot := |s.signers|], signers := s.signers + [Signer(alg, key.params.secret)],
                         answers := s.answers + [Answer(alg, Some((key.kid.value, |s.signers|)))])
  {
    hide SigningKey;
    SigningKeyCanSign(keys, alg);
    var key := SigningKey(alg, keys).value;
    var slot := (key.kid.value, alg);
    var a := Step(keys, s, Begin(id, alg));
    assert a == s.(calls := s.calls[id := Selected(alg, key, key.kid.value)]);
    assert a.calls - {id} == s.calls;
    if slot !in s.cache {
      var b := Step(keys, a, Advance(id));
      assert b == s.(calls := s.calls[id := Missed(alg, key, key.kid.value)]);
      var d := Step(keys, b, Advance(id));
      assert d == s.(signers := s.signers + [Signer(alg, key.params.secret)],
                     calls := s.calls[id := Built(alg, key, key.kid.value, |s.signers|)]);
      assert d.calls - {id} == s.calls;
    }
  }

  /** A call that has begun is answered by its third own step, whatever others did in between. */
  function StepsLeft(s: State, id: nat): nat {
    if id !in s.calls then 0 else match s.calls[id]
      case Selected(_, _, _) => 3
      case Missed(_, _, _) => 2
      case Built(_, _, _, _) => 1
  }

  lemma OwnStepsFinish(keys: seq<Jwk>, s: State, e: Event, id: nat)
    requires id in s.calls
    ensures StepsLeft(Step(keys, s, e), id) < StepsLeft(s, id) <==> e == Advance(id)
    ensures StepsLeft(Step(keys, s, e), id) <= StepsLeft(s, id)
    ensures id !in Step(keys, s, e).calls ==>
              var t := Step(keys, s, e);
              t.answers != [] && t.answers[|t.answers| - 1].alg == s.calls[id].alg
  {
    match e
    case Begin(i, alg) =>
    case Advance(i) =>
  }
}
