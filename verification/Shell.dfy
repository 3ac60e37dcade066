/**
  The meaning of the two shell programs the Job template embeds: the wrapper around a
  custom gather command, and the loop that waits for gather processes to be gone.
 */
module Shell {
  import opened Api
  import opened JobTemplate

  // ---------- the wrapper ----------

  type Words = seq<string>

  /** The exit status of a command, which may depend on everything that ran before it. */
  type Machine = (seq<Words>, Words) -> int

  datatype Stmt =
    | RunArgs             // "$@"
    | SaveStatus          // gather_rc=$?
    | RunOrTrue(w: Words) // <words> || true
    | ExitSaved           // exit $gather_rc

  const CHOWN: Words := ["chown", "-R", "65534:65534", "/must-gather"]

  const WRAPPER: seq<Stmt> := [RunArgs, SaveStatus, RunOrTrue(CHOWN), ExitSaved]

  /** `last` is $?, `saved` is $gather_rc, `ran` the commands executed so far. */
  datatype Shell = Shell(ran: seq<Words>, last: int, saved: int, exited: bool)

  function Step(sh: Shell, s: Stmt, args: Words, run: Machine): Shell {
    match s
    case RunArgs => sh.(last := run(sh.ran, args), ran := sh.ran + [args])
    case SaveStatus => sh.(saved := sh.last, last := 0)
    case RunOrTrue(w) => sh.(last := 0, ran := sh.ran + [w])
    case ExitSaved => sh.(last := sh.saved, exited := true)
  }

  function Interpret(sh: Shell, script: seq<Stmt>, args: Words, run: Machine): Shell
    decreases |script|
  {
    if script == [] || sh.exited then sh else Interpret(Step(sh, script[0], args, run), script[1..], args, run)
  }

  /** A container's life: the commands it executes and its exit status. */
  datatype Life = Life(ran: seq<Words>, status: int)

  /** bash -c script a b c binds $0 to a and "$@" to b c. */
  function Positional(zero: bool, args: Words): Words {
    if zero then args else if args == [] then [] else args[1..]
  }

  function Exec(argv: Words, run: Machine): Life {
    Life([argv], run([], argv))
  }

  function RunWrapper(zero: bool, args: Words, run: Machine): Life {
    var sh := Interpret(Shell([], 0, 0, false), WRAPPER, Positional(zero, args), run);
    Life(sh.ran, sh.last)
  }

  lemma InterpretCons(sh: Shell, s: Stmt, rest: seq<Stmt>, args: Words, run: Machine)
    requires !sh.exited
    ensures Interpret(sh, [s] + rest, args, run) == Interpret(Step(sh, s, args, run), rest, args, run)
  {
    assert ([s] + rest)[1..] == rest;
  }

  lemma WrapperLife(args: Words, run: Machine)
    ensures RunWrapper(true, args, run) == Life([args, CHOWN], run([], args))
  {
    var s0 := Shell([], 0, 0, false);
    var s1 := Step(s0, RunArgs, args, run);
    var s2 := Step(s1, SaveStatus, args, run);
    var s3 := Step(s2, RunOrTrue(CHOWN), args, run);
    assert WRAPPER == [RunArgs] + [SaveStatus, RunOrTrue(CHOWN), ExitSaved];
    assert [SaveStatus, RunOrTrue(CHOWN), ExitSaved] == [SaveStatus] + [RunOrTrue(CHOWN), ExitSaved];
    assert [RunOrTrue(CHOWN), ExitSaved] == [RunOrTrue(CHOWN)] + [ExitSaved];
    assert [ExitSaved] == [ExitSaved] + [];
    InterpretCons(s0, RunArgs, [SaveStatus, RunOrTrue(CHOWN), ExitSaved], args, run);
    InterpretCons(s1, SaveStatus, [RunOrTrue(CHOWN), ExitSaved], args, run);
    InterpretCons(s2, RunOrTrue(CHOWN), [ExitSaved], args, run);
    InterpretCons(s3, ExitSaved, [], args, run);
    assert s1.ran == [args];
    assert s2.ran == s1.ran && s2.saved == s1.last;
    assert s3.ran == [args, CHOWN] && s3.saved == s1.last;
  }

  /** The life of a gather container whose command is custom. */
  function CustomLife(spec: Spec, run: Machine): Life
    requires CustomCommand(spec) != []
  {
    match GatherCommand(spec)
    case Argv(words) => Exec(words + GatherArgs(spec), run)
    case Bash(_, zero) => RunWrapper(zero, GatherArgs(spec), run)
  }

  /**
    Wrapping preserves meaning: with or without obfuscation the container first executes
    the user's command with the user's arguments, and ends with its status, whatever
    chown returns; the wrapper adds exactly the chown.
   */
  lemma WrappingPreservesMeaning(spec: Spec, run: Machine)
    requires spec.gather.Some? && spec.gather.value.command.Some? && spec.gather.value.command.value != []
    ensures var argv := spec.gather.value.command.value + spec.gather.value.args;
            var chowns := spec.obfuscate.Some? && spec.obfuscate.value.enabled == Some(true) && spec.obfuscate.value.source.None?;
            CustomLife(spec, run)
            == Life(if chowns then [argv, ["chown", "-R", "65534:65534", "/must-gather"]] else [argv], run([], argv))
  {
    WrapperLife(GatherArgs(spec), run);
  }

  /** Without the "--" the wrapper would lose the program name. */
  lemma ZeroArgumentIsNeeded(argv: Words, run: Machine)
    requires argv != []
    ensures Positional(false, argv) != argv && Positional(true, argv) == argv
  {
    assert |argv[1..]| != |argv|;
  }

  // ---------- waiting for gather ----------

  const QUIET_POLLS := 5
  const BUSY_PAUSE := 120
  const QUIET_PAUSE := 30

  /** How many polls in a row, at the end, saw no gather process. */
  function QuietStreak(busy: seq<bool>): (n: nat)
    ensures n <= |busy|
  {
    if busy == [] || busy[|busy| - 1] then 0 else 1 + QuietStreak(busy[..|busy| - 1])
  }

  /** Seconds slept after these polls. */
  function Slept(busy: seq<bool>): nat {
    if busy == [] then 0
    else Slept(busy[..|busy| - 1]) + if busy[|busy| - 1] then BUSY_PAUSE else QUIET_PAUSE
  }

  lemma {:induction false} QuietStreakMeans(busy: seq<bool>, k: nat)
    requires k <= |busy|
    ensures QuietStreak(busy) >= k <==> forall i | |busy| - k <= i < |busy| :: !busy[i]
  {
    if k > 0 {
      var front := busy[..|busy| - 1];
      QuietStreakMeans(front, k - 1);
      if !busy[|busy| - 1] && forall i | |front| - (k - 1) <= i < |front| :: !front[i] {
        assert forall i | |busy| - k <= i < |busy| :: i < |front| ==> busy[i] == front[i];
      } else if busy[|busy| - 1] {
      } else {
        var i :| |front| - (k - 1) <= i < |front| && front[i];
        assert busy[i];
      }
    }
  }

  lemma {:induction false} SleptDuringStreak(busy: seq<bool>, k: nat)
    requires k <= QuietStreak(busy)
    ensures Slept(busy) == Slept(busy[..|busy| - k]) + k * QUIET_PAUSE
  {
    if k > 0 {
      SleptDuringStreak(busy[..|busy| - 1], k - 1);
      assert busy[..|busy| - 1][..|busy| - k] == busy[..|busy| - k];
    } else {
      assert busy[..|busy|] == busy;
    }
  }

  /** The upload starts after `n` polls: the first point with five quiet polls in a row. */
  ghost predicate StartsAfter(busy: seq<bool>, n: nat) {
    n <= |busy| && QuietStreak(busy[..n]) >= QUIET_POLLS && forall m | 0 <= m < n :: QuietStreak(busy[..m]) < QUIET_POLLS
  }

  datatype Polled = StillWaiting(count: nat) | Started(polls: nat, seconds: nat)

  /**
    The loop, on any finite part of the unbounded sequence of pgrep observations: the
    counter is the current quiet streak, and the upload starts exactly at the first
    point with five quiet polls in a row.
   */
  method WaitForGather(busy: seq<bool>) returns (r: Polled)
    ensures r.Started? <==> exists n :: StartsAfter(busy, n)
    ensures r.Started? ==> StartsAfter(busy, r.polls) && r.seconds == Slept(busy[..r.polls])
    ensures r.StillWaiting? ==> r.count == QuietStreak(busy)
  {
    var count, i, seconds := 0, 0, 0;
    while count <= 4
      invariant 0 <= i <= |busy|
      invariant count == QuietStreak(busy[..i]) && count <= 5
      invariant seconds == Slept(busy[..i])
      invariant forall m | 0 <= m < i :: QuietStreak(busy[..m]) < QUIET_POLLS
      decreases |busy| - i, 5 - count
    {
      while i < |busy| && busy[i]
        invariant 0 <= i <= |busy|
        invariant count == QuietStreak(busy[..i]) && count <= 4
        invariant seconds == Slept(busy[..i])
        invariant forall m | 0 <= m < i :: QuietStreak(busy[..m]) < QUIET_POLLS
      {
        assert busy[..i + 1][..i] == busy[..i];
        i, seconds, count := i + 1, seconds + BUSY_PAUSE, 0;
      }
      if i == |busy| {
        assert busy[..i] == busy;
        return StillWaiting(count);
      }
      assert busy[..i + 1][..i] == busy[..i];
      i, count, seconds := i + 1, count + 1, seconds + QUIET_PAUSE;
    }
    assert StartsAfter(busy, i);
    return Started(i, seconds);
  }

  /** The start point is unique, ends five quiet polls, and lies 150 seconds after their streak began. */
  lemma StartIsFirstQuietPeriod(busy: seq<bool>, n: nat, m: nat)
    requires StartsAfter(busy, n) && StartsAfter(busy, m)
    ensures n == m && n >= QUIET_POLLS
    ensures forall i | n - QUIET_POLLS <= i < n :: !busy[i]
    ensures Slept(busy[..n]) - Slept(busy[..n - QUIET_POLLS]) == 150
    ensures n > QUIET_POLLS ==> busy[n - QUIET_POLLS - 1]
  {
    var seen := busy[..n];
    QuietStreakMeans(seen, QUIET_POLLS);
    forall i | n - QUIET_POLLS <= i < n ensures !busy[i] {
      assert !seen[i];
    }
    SleptDuringStreak(seen, QUIET_POLLS);
    assert seen[..n - QUIET_POLLS] == busy[..n - QUIET_POLLS];
    if n > QUIET_POLLS {
      var before := busy[..n - 1];
      QuietStreakMeans(before, QUIET_POLLS);
      var i :| n - 1 - QUIET_POLLS <= i < n - 1 && before[i];
      assert busy[i];
    }
  }
}
