/**
 * The agent's entry point (DumpingAgent.start): the once-only activation
 * guard kept in the static `instrumentation` field, the split of the agent
 * argument into an output folder and an optional filter, and the
 * registration of a Dumper with the host's Instrumentation.
 */
module Agent {
  import opened Options
  import opened JavaStrings
  import opened Dumping

  /** The agent argument, split: the output folder and the optional filter. */
  datatype Args = Args(folder: string, filter: Option<string>)

  /**
   * The split in `start`: at the first `?` when it is not the first
   * character, otherwise not at all. A leading `?` is part of the folder,
   * and so is every later `?` of such an argument.
   */
  function SplitArgs(agentArgs: string): (r: Args)
    ensures r.filter.None? <==> '?' !in agentArgs || agentArgs[0] == '?'
    ensures r.filter.None? ==> r.folder == agentArgs
    ensures r.filter.Some? ==>
      r.folder != [] && '?' !in r.folder && r.folder + "?" + r.filter.value == agentArgs
  {
    var filterIdx := IndexOf(agentArgs, '?');
    if filterIdx > 0 then
      assert agentArgs == agentArgs[..filterIdx] + "?" + agentArgs[filterIdx + 1..];
      Args(agentArgs[..filterIdx], Some(agentArgs[filterIdx + 1..]))
    else
      Args(agentArgs, None)
  }

  /** The argument syntax `<folder>` or `<folder>?<filter>`. */
  function JoinArgs(a: Args): string
  {
    match a.filter
    case None => a.folder
    case Some(f) => a.folder + "?" + f
  }

  /** The pairs `SplitArgs` can produce. */
  predicate Canonical(a: Args)
  {
    match a.filter
    case None => '?' !in a.folder || a.folder[0] == '?'
    case Some(_) => a.folder != [] && '?' !in a.folder
  }

  /** Splitting loses nothing: the parts put back together give the argument. */
  lemma SplitJoin(agentArgs: string)
    ensures Canonical(SplitArgs(agentArgs))
    ensures JoinArgs(SplitArgs(agentArgs)) == agentArgs
  {
  }

  /** A `?` cuts `x + "?" + y` at one place only when `x` holds no `?`. */
  lemma {:induction false} CutIsUnique(x1: string, y1: string, x2: string, y2: string)
    requires '?' !in x1 && '?' !in x2
    requires x1 + "?" + y1 == x2 + "?" + y2
    ensures x1 == x2 && y1 == y2
  {
    var s := x1 + "?" + y1;
    assert s[|x1|] == '?' && s[|x2|] == '?';
    assert |x1| == |x2|;
    assert x1 == s[..|x1|] && x2 == s[..|x2|];
    assert y1 == s[|x1| + 1..] && y2 == s[|x2| + 1..];
  }

  /** Every canonical pair is what its own joined form splits into. */
  lemma JoinSplit(a: Args)
    requires Canonical(a)
    ensures SplitArgs(JoinArgs(a)) == a
  {
    var r := SplitArgs(JoinArgs(a));
    match a.filter
    case None =>
    case Some(f) =>
      assert JoinArgs(a)[0] == a.folder[0];
      assert JoinArgs(a)[|a.folder|] == '?';
      CutIsUnique(r.folder, r.filter.value, a.folder, f);
  }

  /** A leading `?` is not a separator: there is no filter, even with later `?`s. */
  lemma LeadingMarkIsFolder(agentArgs: string)
    requires agentArgs != [] && agentArgs[0] == '?'
    ensures SplitArgs(agentArgs) == Args(agentArgs, None)
  {
  }

  /** How one call of `start` ended. */
  datatype StartOutcome =
    | AlreadyStarted       // the guard was armed: return at once
    | MissingArgs          // agentArgs was null
    | UnusableFolder       // the folder could not be created or is not writable
    | NullInstrumentation  // addTransformer called on a null Instrumentation
    | Registered(dumper: Dumper)

  /** The guard after one call of `start`, and how the call ended. */
  datatype Activation = Activation(armed: bool, outcome: StartOutcome)

  /**
   * One call of `start` on a guard that is `armed` or not. The guard is set
   * to the given Instrumentation before anything is checked, so it ends up
   * armed exactly when it already was or the host passed one; a Dumper is
   * registered only on an unarmed guard, with an argument, a usable folder
   * and a host.
   */
  function Activate(armed: bool, agentArgs: Option<string>, hostPresent: bool,
                    usable: string -> bool): (r: Activation)
    ensures r.armed == (armed || hostPresent)
    ensures r.outcome == AlreadyStarted <==> armed
    ensures r.outcome == MissingArgs <==> !armed && agentArgs.None?
    ensures r.outcome == UnusableFolder <==>
      !armed && agentArgs.Some? && !usable(SplitArgs(agentArgs.value).folder)
    ensures r.outcome == NullInstrumentation <==>
      !armed && !hostPresent && agentArgs.Some? && usable(SplitArgs(agentArgs.value).folder)
    ensures r.outcome.Registered? <==>
      !armed && hostPresent && agentArgs.Some? && usable(SplitArgs(agentArgs.value).folder)
    ensures r.outcome.Registered? ==>
      var a := SplitArgs(agentArgs.value);
      r.outcome.dumper == Dumper(a.folder, a.filter)
  {
    if armed then Activation(true, AlreadyStarted)
    else if agentArgs.None? then Activation(hostPresent, MissingArgs)
    else
      var a := SplitArgs(agentArgs.value);
      if !usable(a.folder) then Activation(hostPresent, UnusableFolder)
      else if !hostPresent then Activation(false, NullInstrumentation)
      else Activation(true, Registered(Dumper(a.folder, a.filter)))
  }

  /** The inputs of one call of `start`; `usable` answers for the folder. */
  datatype Attempt = Attempt(agentArgs: Option<string>, hostPresent: bool, usable: string -> bool)

  /** The outcomes of successive calls of `start`, from a guard that is `armed` or not. */
  function Outcomes(armed: bool, attempts: seq<Attempt>): (r: seq<StartOutcome>)
    ensures |r| == |attempts|
    decreases |attempts|
  {
    if attempts == [] then []
    else
      var act := Activate(armed, attempts[0].agentArgs, attempts[0].hostPresent, attempts[0].usable);
      [act.outcome] + Outcomes(act.armed, attempts[1..])
  }

  /** Once the guard is armed, every later call returns at once. */
  lemma {:induction false} ArmedRejectsAll(attempts: seq<Attempt>)
    ensures forall i :: 0 <= i < |attempts| ==> Outcomes(true, attempts)[i] == AlreadyStarted
    decreases |attempts|
  {
    if attempts != [] {
      ArmedRejectsAll(attempts[1..]);
    }
  }

  /**
   * The first call with a host arms the guard whatever it does next: even
   * when it fails on a null argument or an unusable folder, every later
   * call returns at once.
   */
  lemma FirstCallArms(attempts: seq<Attempt>)
    requires attempts != [] && attempts[0].hostPresent
    ensures forall i :: 1 <= i < |attempts| ==> Outcomes(false, attempts)[i] == AlreadyStarted
  {
    ArmedRejectsAll(attempts[1..]);
  }

  /** At most one call of `start` ever registers a Dumper. */
  lemma {:induction false} AtMostOneRegistration(armed: bool, attempts: seq<Attempt>)
    ensures forall i, j :: 0 <= i < j < |attempts| && Outcomes(armed, attempts)[i].Registered? ==>
      !Outcomes(armed, attempts)[j].Registered?
    decreases |attempts|
  {
    if attempts != [] {
      var a0 := attempts[0];
      var act := Activate(armed, a0.agentArgs, a0.hostPresent, a0.usable);
      AtMostOneRegistration(act.armed, attempts[1..]);
      if act.outcome.Registered? {
        ArmedRejectsAll(attempts[1..]);
      }
    }
  }

  /** The host's Instrumentation, reduced to the transformers registered with it. */
  class Instrumentation {
    var transformers: seq<Dumper>

    constructor ()
      ensures transformers == []
    {
      transformers := [];
    }

    /** `addTransformer`. */
    method AddTransformer(d: Dumper)
      modifies this
      ensures transformers == old(transformers) + [d]
    {
      transformers := transformers + [d];
    }
  }

  /** The static state of the agent class: the activation guard. */
  class DumpingAgent {
    var instrumentation: Instrumentation?

    constructor ()
      ensures instrumentation == null
    {
      instrumentation := null;
    }

    /**
     * `start`: return if the guard is armed; otherwise store the given
     * Instrumentation in it, split the argument, check the folder and
     * register a Dumper. `usable` answers `mkdirs` and `canWrite` for the
     * folder.
     */
    method Start(agentArgs: Option<string>, inst: Instrumentation?, usable: string -> bool)
      returns (outcome: StartOutcome)
      modifies this, inst
      ensures var act := Activate(old(instrumentation) != null, agentArgs, inst != null, usable);
        outcome == act.outcome && (instrumentation != null) == act.armed
      ensures instrumentation == if old(instrumentation) != null then old(instrumentation) else inst
      ensures inst != null ==>
        inst.transformers == old(inst.transformers) + (if outcome.Registered? then [outcome.dumper] else [])
    {
      if instrumentation != null {
        return AlreadyStarted;
      }
      instrumentation := inst;
      if agentArgs.None? {
        return MissingArgs;
      }
      var args := SplitArgs(agentArgs.value);
      if !usable(args.folder) {
        return UnusableFolder;
      }
      if inst == null {
        return NullInstrumentation;
      }
      var d := Dumper(args.folder, args.filter);
      inst.AddTransformer(d);
      return Registered(d);
    }
  }
}
