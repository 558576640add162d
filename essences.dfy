/** `apply_essences_to_pets`: for every pet below level 10, look up the first
    essence and activate it on the pet, at most `MAX_ESSENCE_ATTEMPTS_PER_PET`
    times per pet. The game service is an oracle: the `n`-th essence lookup of
    the job gets `lookup(n)` and the `n`-th activation gets `activate(n)`,
    each the decoded body of the reply (`None` when no reply came or it was
    not JSON). The Telegram messages the job sends are returned as notices. */
module Essences {
  import opened PyValues
  import opened Pets

  /** A remote call of the job, tagged with the position of the pet it was
      made for; an activation also records the level the pet had before it
      (`start_level`), the default for the level its answer reports. */
  datatype Call =
    | Lookup(pet: nat, answer: Option<Json>)
    | Activate(pet: nat, petId: Json, essenceId: Json, level: Json, answer: Option<Json>)

  /** The job's counters `applied` and `improved_pets`, how many calls of
      each kind were made, and all calls in order. */
  datatype Tally = Tally(applied: nat, improved: nat, lookups: nat, activations: nat, calls: seq<Call>)

  const Fresh: Tally := Tally(0, 0, 0, 0, [])

  /** How the loop for one pet ended. */
  datatype PetExit = NextPet | Exhausted | Crashed

  datatype PetRun = PetRun(tally: Tally, exit: PetExit)

  /** How the whole job ended: the pets could not be read (an exception), no
      pet was below level 10, every pet was visited, the essences ran out at
      pet `pet`, or an exception escaped while pet `pet` was handled. */
  datatype JobEnd = PetsUnreadable | NoPets | Completed | OutOfEssence(pet: nat) | Aborted(pet: nat)

  datatype Outcome = Outcome(end: JobEnd, tally: Tally)

  /** The Telegram messages of the job. */
  datatype Notice =
    | Starting(below10: nat)
    | NoPetsBelow10
    | RanOut(applied: nat)
    | Summary(applied: nat, improved: nat)

  datatype JobResult = JobResult(end: JobEnd, tally: Tally, notices: seq<Notice>)

  /** `ess.get("_id") or ess.get("id")` */
  function EssenceId(ess: Json): Result<Json> {
    var primary :- Get(ess, "_id", JNull);
    if Truthy(primary) then Ok(primary) else Get(ess, "id", JNull)
  }

  /** How one pass of the inner loop ends: the loop stops with `exit`, or
      it goes round again with the pet at level `level`. */
  datatype PassEnd = Stop(exit: PetExit) | Again(level: Json)

  datatype Pass = Pass(tally: Tally, end: PassEnd)

  /** One pass of the inner loop for the pet at position `pet`, at level `level`. */
  function OnePass(lookup: nat -> Option<Json>, activate: nat -> Option<Json>,
                   pet: nat, petId: Json, level: Json, t: Tally): Pass
  {
    var answer := lookup(t.lookups);
    var t1 := t.(lookups := t.lookups + 1, calls := t.calls + [Lookup(pet, answer)]);
    var ess := FirstEssence(answer);
    if !TruthyOpt(ess) then Pass(t1, Stop(Exhausted))
    else
      match EssenceId(ess.value)
      case Raised => Pass(t1, Stop(Crashed))
      case Ok(essenceId) =>
        if !Truthy(essenceId) then Pass(t1, Stop(NextPet))
        else Activation(activate, pet, petId, essenceId, level, t1)
  }

  /** The rest of a pass once an essence was found: activate it, and go round
      again unless the activation failed, raised or brought the pet to level 10. */
  function Activation(activate: nat -> Option<Json>, pet: nat, petId: Json, essenceId: Json,
                      level: Json, t: Tally): Pass
  {
    var res := activate(t.activations);
    var t2 := t.(activations := t.activations + 1,
                 calls := t.calls + [Activate(pet, petId, essenceId, level, res)]);
    if !TruthyOpt(res) then Pass(t2, Stop(NextPet))
    else
      var t3 := t2.(applied := t2.applied + 1);
      match Get(res.value, "level", level)
      case Raised => Pass(t3, Stop(Crashed))
      case Ok(newLevel) =>
        match AtLeast(newLevel, 10)
        case Raised => Pass(t3, Stop(Crashed))
        case Ok(reached) =>
          if reached then Pass(t3.(improved := t3.improved + 1), Stop(NextPet))
          else Pass(t3, Again(newLevel))
  }

  /** The inner `while attempts < MAX_ESSENCE_ATTEMPTS_PER_PET` loop for the
      pet at position `pet`, from `attempts` attempts already made and the
      pet's current level `level`; reaching the cap moves on to the next pet. */
  function PetLoop(cap: nat, lookup: nat -> Option<Json>, activate: nat -> Option<Json>,
                   pet: nat, petId: Json, level: Json, attempts: nat, t: Tally): PetRun
    decreases cap - attempts
  {
    if attempts >= cap then PetRun(t, NextPet)
    else
      var p := OnePass(lookup, activate, pet, petId, level, t);
      match p.end
      case Stop(exit) => PetRun(p.tally, exit)
      case Again(newLevel) => PetLoop(cap, lookup, activate, pet, petId, newLevel, attempts + 1, p.tally)
  }

  /** The outer `for pet in pets` loop from position `i` on. */
  function PetsLoop(cap: nat, lookup: nat -> Option<Json>, activate: nat -> Option<Json>,
                    pets: seq<PetRef>, i: nat, t: Tally): Outcome
    requires i <= |pets|
    decreases |pets| - i, 1
  {
    if i == |pets| then Outcome(Completed, t)
    else AfterPet(cap, lookup, activate, pets, i,
                  PetLoop(cap, lookup, activate, i, pets[i].id, pets[i].level, 0, t))
  }

  /** What the outer loop does once the pet at position `i` is done. */
  function AfterPet(cap: nat, lookup: nat -> Option<Json>, activate: nat -> Option<Json>,
                    pets: seq<PetRef>, i: nat, run: PetRun): Outcome
    requires i < |pets|
    decreases |pets| - i, 0
  {
    match run.exit
    case NextPet => PetsLoop(cap, lookup, activate, pets, i + 1, run.tally)
    case Exhausted => Outcome(OutOfEssence(i), run.tally)
    case Crashed => Outcome(Aborted(i), run.tally)
  }

  /** The message sent when the loop is over. */
  function Closing(o: Outcome): seq<Notice> {
    match o.end
    case Completed => [Summary(o.tally.applied, o.tally.improved)]
    case OutOfEssence(_) => [RanOut(o.tally.applied)]
    case _ => []
  }

  /** The whole job, from the decoded `user.getSelf` body `petsBody`. */
  function ApplyEssences(cap: nat, petsBody: Option<Json>,
                         lookup: nat -> Option<Json>, activate: nat -> Option<Json>): JobResult
  {
    match PetsBelowLevel10(petsBody)
    case Raised => JobResult(PetsUnreadable, Fresh, [])
    case Ok(pets) =>
      if pets == [] then JobResult(NoPets, Fresh, [Starting(0), NoPetsBelow10])
      else
        var o := PetsLoop(cap, lookup, activate, pets, 0, Fresh);
        JobResult(o.end, o.tally, [Starting(|pets|)] + Closing(o))
  }

  /** The inner loop of `apply_essences_to_pets` for the pet at position
      `pet`: up to `cap` lookups and activations, stopping when an activation
      fails, the pet reaches level 10, the essences run out or an exception
      escapes. `t` holds the job's counters when the pet's turn begins. */
  method RunPet(cap: nat, lookup: nat -> Option<Json>, activate: nat -> Option<Json>,
                pet: nat, ref: PetRef, t: Tally)
    returns (run: PetRun)
    ensures run == PetLoop(cap, lookup, activate, pet, ref.id, ref.level, 0, t)
  {
    var applied, improved, lookups, activations, calls := t.applied, t.improved, t.lookups, t.activations, t.calls;
    var level := ref.level;
    var attempts := 0;
    while attempts < cap
      invariant attempts <= cap
      invariant PetLoop(cap, lookup, activate, pet, ref.id, ref.level, 0, t)
                == PetLoop(cap, lookup, activate, pet, ref.id, level, attempts,
                           Tally(applied, improved, lookups, activations, calls))
    {
      ghost var pass := OnePass(lookup, activate, pet, ref.id, level,
                                Tally(applied, improved, lookups, activations, calls));
      attempts := attempts + 1;
      var answer := lookup(lookups);
      lookups := lookups + 1;
      calls := calls + [Lookup(pet, answer)];
      var ess := FirstEssence(answer);
      if !TruthyOpt(ess) {
        return PetRun(Tally(applied, improved, lookups, activations, calls), Exhausted);
      }
      var essenceId := EssenceId(ess.value);
      if essenceId.Raised? {
        return PetRun(Tally(applied, improved, lookups, activations, calls), Crashed);
      }
      if !Truthy(essenceId.value) {
        return PetRun(Tally(applied, improved, lookups, activations, calls), NextPet);
      }
      assert pass == Activation(activate, pet, ref.id, essenceId.value, level,
                                Tally(applied, improved, lookups, activations, calls));
      var res := activate(activations);
      activations := activations + 1;
      calls := calls + [Activate(pet, ref.id, essenceId.value, level, res)];
      if !TruthyOpt(res) {
        return PetRun(Tally(applied, improved, lookups, activations, calls), NextPet);
      }
      applied := applied + 1;
      var newLevel := Get(res.value, "level", level);
      if newLevel.Raised? {
        return PetRun(Tally(applied, improved, lookups, activations, calls), Crashed);
      }
      var reached := AtLeast(newLevel.value, 10);
      if reached.Raised? {
        return PetRun(Tally(applied, improved, lookups, activations, calls), Crashed);
      }
      if reached.value {
        improved := improved + 1;
        return PetRun(Tally(applied, improved, lookups, activations, calls), NextPet);
      }
      assert pass == Pass(Tally(applied, improved, lookups, activations, calls), Again(newLevel.value));
      level := newLevel.value;
    }
    run := PetRun(Tally(applied, improved, lookups, activations, calls), NextPet);
  }

  /** `apply_essences_to_pets`: the outer loop over the pets below level 10,
      with the messages it sends. */
  method ApplyEssencesToPets(cap: nat, petsBody: Option<Json>,
                             lookup: nat -> Option<Json>, activate: nat -> Option<Json>)
    returns (r: JobResult)
    ensures r == ApplyEssences(cap, petsBody, lookup, activate)
  {
    var fetched := PetsBelowLevel10(petsBody);
    if fetched.Raised? {
      return JobResult(PetsUnreadable, Fresh, []);
    }
    var pets := fetched.value;
    var notices := [Starting(|pets|)];
    if pets == [] {
      return JobResult(NoPets, Fresh, notices + [NoPetsBelow10]);
    }
    var tally := Fresh;
    for i := 0 to |pets|
      invariant PetsLoop(cap, lookup, activate, pets, 0, Fresh) == PetsLoop(cap, lookup, activate, pets, i, tally)
    {
      var run := RunPet(cap, lookup, activate, i, pets[i], tally);
      tally := run.tally;
      if run.exit == Exhausted {
        return JobResult(OutOfEssence(i), tally, notices + [RanOut(tally.applied)]);
      } else if run.exit == Crashed {
        return JobResult(Aborted(i), tally, notices);
      }
    }
    r := JobResult(Completed, tally, notices + [Summary(tally.applied, tally.improved)]);
  }

  /** The number of activation calls made for the pet at position `pet`. */
  function ActivationsFor(calls: seq<Call>, pet: nat): nat {
    if calls == [] then 0
    else ActivationsFor(calls[..|calls| - 1], pet)
         + (if calls[|calls| - 1].Activate? && calls[|calls| - 1].pet == pet then 1 else 0)
  }

  /** The number of activation calls whose answer was truthy. */
  function Successes(calls: seq<Call>): nat {
    if calls == [] then 0
    else Successes(calls[..|calls| - 1])
         + (if calls[|calls| - 1].Activate? && TruthyOpt(calls[|calls| - 1].answer) then 1 else 0)
  }

  /** An essence lookup that found no usable essence (`if not ess`). */
  predicate FalsyLookup(c: Call) {
    c.Lookup? && !TruthyOpt(FirstEssence(c.answer))
  }

  predicate NoFalsyLookup(calls: seq<Call>) {
    forall j :: 0 <= j < |calls| ==> !FalsyLookup(calls[j])
  }

  /** Every call was made for a pet at a position below `bound`. */
  predicate CallsBelow(calls: seq<Call>, bound: nat) {
    forall j :: 0 <= j < |calls| ==> calls[j].pet < bound
  }

  /** `res.get("level", start_level) >= 10` for an activation call that got
      an answer. */
  function LevelReached(c: Call): Result<bool>
    requires c.Activate? && c.answer.Some?
  {
    var newLevel :- Get(c.answer.value, "level", c.level);
    AtLeast(newLevel, 10)
  }

  /** An activation whose answer brought the pet to level 10. */
  predicate Improves(c: Call) {
    c.Activate? && TruthyOpt(c.answer) && LevelReached(c) == Ok(true)
  }

  /** A call whose answer made the job raise: an essence whose id cannot be
      read, or an activation answer whose level cannot be read or compared
      with 10. */
  predicate Raises(c: Call) {
    || (c.Lookup? && TruthyOpt(FirstEssence(c.answer)) && EssenceId(FirstEssence(c.answer).value).Raised?)
    || (c.Activate? && TruthyOpt(c.answer) && LevelReached(c).Raised?)
  }

  predicate NoRaise(calls: seq<Call>) {
    forall j :: 0 <= j < |calls| ==> !Raises(calls[j])
  }

  /** The number of activation calls that brought their pet to level 10. */
  function Improvements(calls: seq<Call>): nat {
    if calls == [] then 0
    else Improvements(calls[..|calls| - 1]) + (if Improves(calls[|calls| - 1]) then 1 else 0)
  }

  lemma AppendCall(calls: seq<Call>, c: Call)
    ensures forall k :: ActivationsFor(calls + [c], k)
                        == ActivationsFor(calls, k) + (if c.Activate? && c.pet == k then 1 else 0)
    ensures Successes(calls + [c]) == Successes(calls) + (if c.Activate? && TruthyOpt(c.answer) then 1 else 0)
    ensures Improvements(calls + [c]) == Improvements(calls) + (if Improves(c) then 1 else 0)
  {
  }

  lemma {:induction false} NoCallsNoActivations(calls: seq<Call>, pet: nat)
    requires forall j :: 0 <= j < |calls| ==> calls[j].pet != pet
    ensures ActivationsFor(calls, pet) == 0
    decreases |calls|
  {
    if calls != [] {
      NoCallsNoActivations(calls[..|calls| - 1], pet);
    }
  }

  /** The id of the essence a lookup found, when the pass goes on to activate it. */
  function FoundId(answer: Option<Json>): Option<Json> {
    var ess := FirstEssence(answer);
    if TruthyOpt(ess) && EssenceId(ess.value).Ok? && Truthy(EssenceId(ess.value).value)
    then Some(EssenceId(ess.value).value) else None
  }

  /** The activation stage makes exactly one activation call and counts it
      in `applied` when its answer is truthy. The level the answer reports
      (the pet's level when it reports none) decides the rest: 10 or more
      adds one to `improved_pets` and ends the pet's turn, less goes round
      again at that level, and a level that cannot be read or compared
      raises. */
  lemma ActivationFacts(activate: nat -> Option<Json>, pet: nat, petId: Json, essenceId: Json,
                        level: Json, t: Tally)
    ensures var p := Activation(activate, pet, petId, essenceId, level, t);
            var res := activate(t.activations);
            var ok := TruthyOpt(res);
            var a := Activate(pet, petId, essenceId, level, res);
            && p.tally.calls == t.calls + [a]
            && p.tally.applied == t.applied + (if ok then 1 else 0)
            && p.tally.improved <= t.improved + (if ok then 1 else 0)
            && p.tally.improved == t.improved + (if Improves(a) then 1 else 0)
            && (p.end.Again? ==> p.tally.improved == t.improved)
            && p.end != Stop(Exhausted)
            && (!ok ==> p.end == Stop(NextPet))
            && (p.end == Stop(Crashed) <==> Raises(a))
            && (ok && Get(res.value, "level", level).Ok? ==>
                  var newLevel := Get(res.value, "level", level).value;
                  && (AtLeast(newLevel, 10) == Ok(true) ==>
                        p.tally.improved == t.improved + 1 && p.end == Stop(NextPet))
                  && (AtLeast(newLevel, 10) == Ok(false) ==>
                        p.tally.improved == t.improved && p.end == Again(newLevel)))
  {
  }

  /** A pass is its lookup alone, or its lookup followed by the activation stage. */
  lemma OnePassStages(lookup: nat -> Option<Json>, activate: nat -> Option<Json>,
                      pet: nat, petId: Json, level: Json, t: Tally)
    ensures var p := OnePass(lookup, activate, pet, petId, level, t);
            var l := Lookup(pet, lookup(t.lookups));
            var t1 := t.(lookups := t.lookups + 1, calls := t.calls + [l]);
            && (p.end == Stop(Exhausted) <==> FalsyLookup(l))
            && match FoundId(lookup(t.lookups))
               case None => p.tally.calls == t.calls + [l] && p.tally.applied == t.applied
                            && p.tally.improved == t.improved && p.end.Stop?
               case Some(e) => p == Activation(activate, pet, petId, e, level, t1)
  {
  }

  /** One pass appends one or two calls, all for its pet, and at most one
      activation. */
  lemma OnePassCalls(lookup: nat -> Option<Json>, activate: nat -> Option<Json>,
                     pet: nat, petId: Json, level: Json, t: Tally)
    ensures var c := OnePass(lookup, activate, pet, petId, level, t).tally.calls;
            && |t.calls| < |c| && c[..|t.calls|] == t.calls
            && (forall j :: |t.calls| <= j < |c| ==> c[j].pet == pet)
            && ActivationsFor(c, pet) <= ActivationsFor(t.calls, pet) + 1
            && (forall k :: k != pet ==> ActivationsFor(c, k) == ActivationsFor(t.calls, k))
  {
    var l := Lookup(pet, lookup(t.lookups));
    OnePassStages(lookup, activate, pet, petId, level, t);
    AppendCall(t.calls, l);
    var found := FoundId(lookup(t.lookups));
    if found.Some? {
      var t1 := t.(lookups := t.lookups + 1, calls := t.calls + [l]);
      ActivationFacts(activate, pet, petId, found.value, level, t1);
      AppendCall(t1.calls, Activate(pet, petId, found.value, level, activate(t.activations)));
    }
  }

  /** One pass adds to `applied` exactly its successful activation, improves
      the pet at most once and only when it stops, and makes a lookup that
      finds no essence only when it stops for that reason. */
  lemma OnePassCounters(lookup: nat -> Option<Json>, activate: nat -> Option<Json>,
                        pet: nat, petId: Json, level: Json, t: Tally)
    requires t.applied == Successes(t.calls) && t.improved <= t.applied
    requires t.improved == Improvements(t.calls)
    requires NoFalsyLookup(t.calls)
    ensures var p := OnePass(lookup, activate, pet, petId, level, t);
            var c := p.tally.calls;
            && p.tally.applied == Successes(c)
            && p.tally.improved == Improvements(c)
            && p.tally.improved <= t.improved + 1
            && (p.end.Again? ==> p.tally.improved == t.improved)
            && p.tally.improved <= p.tally.applied
            && if p.end == Stop(Exhausted)
               then |c| > 0 && FalsyLookup(c[|c| - 1]) && c[..|c| - 1] == t.calls
               else NoFalsyLookup(c)
  {
    var l := Lookup(pet, lookup(t.lookups));
    OnePassStages(lookup, activate, pet, petId, level, t);
    AppendCall(t.calls, l);
    var found := FoundId(lookup(t.lookups));
    if found.Some? {
      var t1 := t.(lookups := t.lookups + 1, calls := t.calls + [l]);
      var a := Activate(pet, petId, found.value, level, activate(t.activations));
      ActivationFacts(activate, pet, petId, found.value, level, t1);
      AppendCall(t1.calls, a);
      assert !FalsyLookup(l);
      assert NoFalsyLookup(t1.calls + [a]);
    } else {
      assert (t.calls + [l])[..|t.calls|] == t.calls;
    }
  }

  /** The loop for one pet only appends calls, all for that pet, and makes at
      most `cap - attempts` activation calls. */
  lemma {:induction false} PetLoopCalls(cap: nat, lookup: nat -> Option<Json>, activate: nat -> Option<Json>,
                                        pet: nat, petId: Json, level: Json, attempts: nat, t: Tally)
    requires attempts <= cap
    ensures var c := PetLoop(cap, lookup, activate, pet, petId, level, attempts, t).tally.calls;
            && |t.calls| <= |c| && c[..|t.calls|] == t.calls
            && (forall j :: |t.calls| <= j < |c| ==> c[j].pet == pet)
            && ActivationsFor(c, pet) <= ActivationsFor(t.calls, pet) + (cap - attempts)
            && (forall k :: k != pet ==> ActivationsFor(c, k) == ActivationsFor(t.calls, k))
    decreases cap - attempts
  {
    if attempts < cap {
      var p := OnePass(lookup, activate, pet, petId, level, t);
      OnePassCalls(lookup, activate, pet, petId, level, t);
      if p.end.Again? {
        PetLoopCalls(cap, lookup, activate, pet, petId, p.end.level, attempts + 1, p.tally);
        var c := PetLoop(cap, lookup, activate, pet, petId, p.end.level, attempts + 1, p.tally).tally.calls;
        assert c[..|t.calls|] == c[..|p.tally.calls|][..|t.calls|];
        forall j | |t.calls| <= j < |c|
          ensures c[j].pet == pet
        {
          if j < |p.tally.calls| {
            assert c[j] == c[..|p.tally.calls|][j];
          }
        }
      }
    }
  }

  /** The loop for one pet adds to `applied` exactly its successful
      activations, improves the pet at most once, and stops on a lookup that
      finds no essence exactly when that lookup is its last call. */
  lemma {:induction false} PetLoopCounters(cap: nat, lookup: nat -> Option<Json>, activate: nat -> Option<Json>,
                                           pet: nat, petId: Json, level: Json, attempts: nat, t: Tally)
    requires attempts <= cap
    requires t.applied == Successes(t.calls) && t.improved <= t.applied
    requires t.improved == Improvements(t.calls)
    requires NoFalsyLookup(t.calls)
    ensures var run := PetLoop(cap, lookup, activate, pet, petId, level, attempts, t);
            var c := run.tally.calls;
            && run.tally.applied == Successes(c)
            && run.tally.improved == Improvements(c)
            && run.tally.improved <= t.improved + 1
            && run.tally.improved <= run.tally.applied
            && if run.exit == Exhausted
               then |c| > 0 && FalsyLookup(c[|c| - 1]) && NoFalsyLookup(c[..|c| - 1])
               else NoFalsyLookup(c)
    decreases cap - attempts
  {
    if attempts < cap {
      var p := OnePass(lookup, activate, pet, petId, level, t);
      OnePassCounters(lookup, activate, pet, petId, level, t);
      if p.end.Again? {
        PetLoopCounters(cap, lookup, activate, pet, petId, p.end.level, attempts + 1, p.tally);
      }
    }
  }

  /** A pass raises exactly when its last call's answer raises, and no call
      before that one raised. */
  lemma OnePassRaises(lookup: nat -> Option<Json>, activate: nat -> Option<Json>,
                      pet: nat, petId: Json, level: Json, t: Tally)
    requires NoRaise(t.calls)
    ensures var c := OnePass(lookup, activate, pet, petId, level, t).tally.calls;
            if OnePass(lookup, activate, pet, petId, level, t).end == Stop(Crashed)
            then |t.calls| < |c| && Raises(c[|c| - 1]) && NoRaise(c[..|c| - 1])
            else NoRaise(c)
  {
    var l := Lookup(pet, lookup(t.lookups));
    OnePassStages(lookup, activate, pet, petId, level, t);
    var found := FoundId(lookup(t.lookups));
    if found.Some? {
      var t1 := t.(lookups := t.lookups + 1, calls := t.calls + [l]);
      var a := Activate(pet, petId, found.value, level, activate(t.activations));
      ActivationFacts(activate, pet, petId, found.value, level, t1);
      assert !Raises(l);
      assert (t1.calls + [a])[..|t1.calls|] == t1.calls;
    } else {
      assert (t.calls + [l])[..|t.calls|] == t.calls;
    }
  }

  /** The loop for one pet ends on an exception exactly when its last call's
      answer raised; in every other case, among them running out of
      attempts, no call raised. */
  lemma {:induction false} PetLoopRaises(cap: nat, lookup: nat -> Option<Json>, activate: nat -> Option<Json>,
                                         pet: nat, petId: Json, level: Json, attempts: nat, t: Tally)
    requires attempts <= cap
    requires NoRaise(t.calls)
    ensures var c := PetLoop(cap, lookup, activate, pet, petId, level, attempts, t).tally.calls;
            if PetLoop(cap, lookup, activate, pet, petId, level, attempts, t).exit == Crashed
            then |c| > 0 && Raises(c[|c| - 1]) && NoRaise(c[..|c| - 1])
            else NoRaise(c)
    decreases cap - attempts
  {
    if attempts < cap {
      var p := OnePass(lookup, activate, pet, petId, level, t);
      OnePassRaises(lookup, activate, pet, petId, level, t);
      match p.end
      case Stop(exit) =>
        assert PetLoop(cap, lookup, activate, pet, petId, level, attempts, t) == PetRun(p.tally, exit);
      case Again(newLevel) =>
        assert PetLoop(cap, lookup, activate, pet, petId, level, attempts, t)
               == PetLoop(cap, lookup, activate, pet, petId, newLevel, attempts + 1, p.tally);
        PetLoopRaises(cap, lookup, activate, pet, petId, newLevel, attempts + 1, p.tally);
    }
  }

  /** From the pet at position `i` on, the job is aborted exactly when its
      last call's answer raised, and no earlier call raised. */
  lemma {:induction false} PetsLoopRaises(cap: nat, lookup: nat -> Option<Json>, activate: nat -> Option<Json>,
                                          pets: seq<PetRef>, i: nat, t: Tally)
    requires i <= |pets|
    requires NoRaise(t.calls)
    ensures var c := PetsLoop(cap, lookup, activate, pets, i, t).tally.calls;
            if PetsLoop(cap, lookup, activate, pets, i, t).end.Aborted?
            then |c| > 0 && Raises(c[|c| - 1]) && NoRaise(c[..|c| - 1])
            else NoRaise(c)
    decreases |pets| - i
  {
    if i < |pets| {
      var run := PetLoop(cap, lookup, activate, i, pets[i].id, pets[i].level, 0, t);
      assert PetsLoop(cap, lookup, activate, pets, i, t) == AfterPet(cap, lookup, activate, pets, i, run);
      PetLoopRaises(cap, lookup, activate, i, pets[i].id, pets[i].level, 0, t);
      match run.exit
      case NextPet =>
        PetsLoopRaises(cap, lookup, activate, pets, i + 1, run.tally);
      case Exhausted =>
        assert PetsLoop(cap, lookup, activate, pets, i, t) == Outcome(OutOfEssence(i), run.tally);
      case Crashed =>
        assert PetsLoop(cap, lookup, activate, pets, i, t) == Outcome(Aborted(i), run.tally);
    }
  }

  /** A pet's turn that ends neither on a lookup finding no essence nor on
      an exception, in particular one that used up all its attempts (the
      loop's `else`), hands over to the next pet. */
  lemma QuietTurnMovesOn(cap: nat, lookup: nat -> Option<Json>, activate: nat -> Option<Json>,
                         pets: seq<PetRef>, i: nat, t: Tally)
    requires i < |pets|
    requires t.applied == Successes(t.calls) && t.improved <= t.applied && t.improved == Improvements(t.calls)
    requires NoFalsyLookup(t.calls) && NoRaise(t.calls)
    ensures var run := PetLoop(cap, lookup, activate, i, pets[i].id, pets[i].level, 0, t);
            NoFalsyLookup(run.tally.calls) && NoRaise(run.tally.calls) ==>
              PetsLoop(cap, lookup, activate, pets, i, t) == PetsLoop(cap, lookup, activate, pets, i + 1, run.tally)
  {
    var run := PetLoop(cap, lookup, activate, i, pets[i].id, pets[i].level, 0, t);
    assert PetsLoop(cap, lookup, activate, pets, i, t) == AfterPet(cap, lookup, activate, pets, i, run);
    PetLoopCounters(cap, lookup, activate, i, pets[i].id, pets[i].level, 0, t);
    PetLoopRaises(cap, lookup, activate, i, pets[i].id, pets[i].level, 0, t);
  }

  /** From the pet at position `i` on, every pet gets at most `cap`
      activation calls, and no call is made for a pet after the one the job
      ended at. */
  lemma {:induction false} PetsLoopCalls(cap: nat, lookup: nat -> Option<Json>, activate: nat -> Option<Json>,
                                         pets: seq<PetRef>, i: nat, t: Tally)
    requires i <= |pets|
    requires forall k :: ActivationsFor(t.calls, k) <= cap
    requires CallsBelow(t.calls, i)
    ensures var o := PetsLoop(cap, lookup, activate, pets, i, t);
            && (forall k :: ActivationsFor(o.tally.calls, k) <= cap)
            && (o.end.Completed? || ((o.end.OutOfEssence? || o.end.Aborted?) && i <= o.end.pet < |pets|))
            && CallsBelow(o.tally.calls, if o.end.Completed? then |pets| else o.end.pet + 1)
    decreases |pets| - i
  {
    if i < |pets| {
      var run := PetLoop(cap, lookup, activate, i, pets[i].id, pets[i].level, 0, t);
      assert PetsLoop(cap, lookup, activate, pets, i, t) == AfterPet(cap, lookup, activate, pets, i, run);
      PetLoopCalls(cap, lookup, activate, i, pets[i].id, pets[i].level, 0, t);
      var c := run.tally.calls;
      NoCallsNoActivations(t.calls, i);
      forall j | 0 <= j < |c|
        ensures c[j].pet < i + 1
      {
        if j < |t.calls| {
          assert c[j] == c[..|t.calls|][j];
        }
      }
      match run.exit
      case NextPet =>
        PetsLoopCalls(cap, lookup, activate, pets, i + 1, run.tally);
      case Exhausted =>
        assert PetsLoop(cap, lookup, activate, pets, i, t) == Outcome(OutOfEssence(i), run.tally);
      case Crashed =>
        assert PetsLoop(cap, lookup, activate, pets, i, t) == Outcome(Aborted(i), run.tally);
    }
  }

  /** From the pet at position `i` on, `applied` keeps counting the
      successful activations, each pet adds at most one to `improved_pets`,
      and a lookup that finds no essence is made only as the last call. */
  lemma {:induction false} PetsLoopCounters(cap: nat, lookup: nat -> Option<Json>, activate: nat -> Option<Json>,
                                            pets: seq<PetRef>, i: nat, t: Tally)
    requires i <= |pets|
    requires t.applied == Successes(t.calls) && t.improved <= i && t.improved <= t.applied
    requires t.improved == Improvements(t.calls)
    requires NoFalsyLookup(t.calls)
    ensures var o := PetsLoop(cap, lookup, activate, pets, i, t);
            var c := o.tally.calls;
            && o.tally.applied == Successes(c)
            && o.tally.improved == Improvements(c)
            && o.tally.improved <= |pets| && o.tally.improved <= o.tally.applied
            && if o.end.OutOfEssence?
               then |c| > 0 && FalsyLookup(c[|c| - 1]) && NoFalsyLookup(c[..|c| - 1])
               else NoFalsyLookup(c)
    decreases |pets| - i
  {
    if i < |pets| {
      var run := PetLoop(cap, lookup, activate, i, pets[i].id, pets[i].level, 0, t);
      assert PetsLoop(cap, lookup, activate, pets, i, t) == AfterPet(cap, lookup, activate, pets, i, run);
      PetLoopCounters(cap, lookup, activate, i, pets[i].id, pets[i].level, 0, t);
      match run.exit
      case NextPet =>
        PetsLoopCounters(cap, lookup, activate, pets, i + 1, run.tally);
      case Exhausted =>
        assert PetsLoop(cap, lookup, activate, pets, i, t) == Outcome(OutOfEssence(i), run.tally);
      case Crashed =>
        assert PetsLoop(cap, lookup, activate, pets, i, t) == Outcome(Aborted(i), run.tally);
    }
  }

  /** For every pet, the job makes at most `MAX_ESSENCE_ATTEMPTS_PER_PET`
      activation calls, whatever the service answers. */
  lemma EssenceActivationsCappedPerPet(cap: nat, petsBody: Option<Json>,
                                       lookup: nat -> Option<Json>, activate: nat -> Option<Json>)
    ensures var r := ApplyEssences(cap, petsBody, lookup, activate);
            forall k :: ActivationsFor(r.tally.calls, k) <= cap
  {
    var fetched := PetsBelowLevel10(petsBody);
    if fetched.Ok? && fetched.value != [] {
      PetsLoopCalls(cap, lookup, activate, fetched.value, 0, Fresh);
      PetsLoopCounters(cap, lookup, activate, fetched.value, 0, Fresh);
    }
  }

  /** `applied` counts exactly the activations that got a truthy answer,
      `improved_pets` exactly the activations whose answer brought the pet to
      level 10, which happens at most once per pet and never past `applied`. */
  lemma AppliedCountsSuccessfulActivations(cap: nat, petsBody: Option<Json>,
                                           lookup: nat -> Option<Json>, activate: nat -> Option<Json>)
    ensures var r := ApplyEssences(cap, petsBody, lookup, activate);
            && r.tally.applied == Successes(r.tally.calls)
            && r.tally.improved == Improvements(r.tally.calls)
            && r.tally.improved <= r.tally.applied
            && forall pets :: PetsBelowLevel10(petsBody) == Ok(pets) ==> r.tally.improved <= |pets|
  {
    var fetched := PetsBelowLevel10(petsBody);
    if fetched.Ok? && fetched.value != [] {
      PetsLoopCalls(cap, lookup, activate, fetched.value, 0, Fresh);
      PetsLoopCounters(cap, lookup, activate, fetched.value, 0, Fresh);
    }
  }

  /** The first lookup that finds no essence ends the whole job: it is the
      last call made, no call is made for a later pet, and the closing
      summary is not sent; the job ends that way only then. */
  lemma RunningOutEndsTheJob(cap: nat, petsBody: Option<Json>,
                             lookup: nat -> Option<Json>, activate: nat -> Option<Json>)
    ensures var r := ApplyEssences(cap, petsBody, lookup, activate);
            var c := r.tally.calls;
            && (r.end.OutOfEssence? <==> !NoFalsyLookup(c))
            && (r.end.OutOfEssence? ==>
                  && |c| > 0 && FalsyLookup(c[|c| - 1]) && NoFalsyLookup(c[..|c| - 1])
                  && CallsBelow(c, r.end.pet + 1)
                  && |r.notices| == 2 && r.notices[1] == RanOut(r.tally.applied))
            && (r.end.Completed? <==> exists n :: n in r.notices && n.Summary?)
            && (r.end.Completed? ==> r.notices[|r.notices| - 1] == Summary(r.tally.applied, r.tally.improved))
  {
    var r := ApplyEssences(cap, petsBody, lookup, activate);
    var c := r.tally.calls;
    var fetched := PetsBelowLevel10(petsBody);
    if fetched.Ok? && fetched.value != [] {
      PetsLoopCalls(cap, lookup, activate, fetched.value, 0, Fresh);
      PetsLoopCounters(cap, lookup, activate, fetched.value, 0, Fresh);
      if r.end.OutOfEssence? {
        assert c[|c| - 1] in c;
        assert r.notices == [Starting(|fetched.value|), RanOut(r.tally.applied)];
      } else if r.end.Completed? {
        assert r.notices == [Starting(|fetched.value|), Summary(r.tally.applied, r.tally.improved)];
        assert r.notices[1] in r.notices;
      } else {
        assert r.notices == [Starting(|fetched.value|)];
      }
    }
  }

  /** An exception ends the whole job exactly when some call's answer
      raised: that call is the last one made, no call is made for a later
      pet, and only the opening message was sent. */
  lemma ExceptionAbortsTheJob(cap: nat, petsBody: Option<Json>,
                              lookup: nat -> Option<Json>, activate: nat -> Option<Json>)
    ensures var r := ApplyEssences(cap, petsBody, lookup, activate);
            var c := r.tally.calls;
            && (r.end.Aborted? <==> !NoRaise(c))
            && (r.end.Aborted? ==>
                  && |c| > 0 && Raises(c[|c| - 1]) && NoRaise(c[..|c| - 1])
                  && CallsBelow(c, r.end.pet + 1)
                  && |r.notices| == 1 && r.notices[0].Starting?)
  {
    var r := ApplyEssences(cap, petsBody, lookup, activate);
    var c := r.tally.calls;
    var fetched := PetsBelowLevel10(petsBody);
    if fetched.Ok? && fetched.value != [] {
      PetsLoopCalls(cap, lookup, activate, fetched.value, 0, Fresh);
      PetsLoopRaises(cap, lookup, activate, fetched.value, 0, Fresh);
      if r.end.Aborted? {
        assert c[|c| - 1] in c;
        assert r.notices == [Starting(|fetched.value|)];
      }
    }
  }

  lemma {:induction false} PetsLoopWithoutAttempts(lookup: nat -> Option<Json>, activate: nat -> Option<Json>,
                                                   pets: seq<PetRef>, i: nat, t: Tally)
    requires i <= |pets|
    ensures PetsLoop(0, lookup, activate, pets, i, t) == Outcome(Completed, t)
    decreases |pets| - i
  {
    if i < |pets| {
      PetsLoopWithoutAttempts(lookup, activate, pets, i + 1, t);
    }
  }

  /** With `MAX_ESSENCE_ATTEMPTS_PER_PET = 0` every pet is passed over at
      once: no call is made and the job completes. */
  lemma ZeroCapMakesNoCalls(petsBody: Option<Json>, lookup: nat -> Option<Json>, activate: nat -> Option<Json>)
    ensures var r := ApplyEssences(0, petsBody, lookup, activate);
            r.tally.calls == [] && (r.end.Completed? || r.end.NoPets? || r.end.PetsUnreadable?)
  {
    var fetched := PetsBelowLevel10(petsBody);
    if fetched.Ok? && fetched.value != [] {
      PetsLoopWithoutAttempts(lookup, activate, fetched.value, 0, Fresh);
    }
  }

  /** An essence with neither `_id` nor `id`, or an activation that gives
      nothing, ends only the current pet's turn: the job goes on with the
      next pet, and `applied` is unchanged. */
  lemma BreakEndsOnlyThePet(cap: nat, lookup: nat -> Option<Json>, activate: nat -> Option<Json>,
                            pets: seq<PetRef>, i: nat, t: Tally)
    requires i < |pets| && 0 < cap
    requires var ess := FirstEssence(lookup(t.lookups));
             && TruthyOpt(ess) && EssenceId(ess.value).Ok?
             && (!Truthy(EssenceId(ess.value).value) || !TruthyOpt(activate(t.activations)))
    ensures var p := OnePass(lookup, activate, i, pets[i].id, pets[i].level, t);
            && p.tally.applied == t.applied && p.tally.improved == t.improved
            && PetsLoop(cap, lookup, activate, pets, i, t) == PetsLoop(cap, lookup, activate, pets, i + 1, p.tally)
  {
  }
}
