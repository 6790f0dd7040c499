/** The whole outbox: every Capture name runs its own protocol over its own files, and one process
    starts, crashes and passes its start-up phases for all of them together. */
module OutboxSystem {
  import opened Options
  import opened CaptureStore
  import opened RelayReceipt
  import opened OutboxProtocol
  import opened OutboxSafety
  import opened OutboxConvergence
  import opened OutboxCleanup

  type System = map<string, Capture>

  datatype SystemAction = At(name: string, a: Action) | Together(s: StartAction)

  // The steps the process takes for all names at once.
  predicate Shared(s: StartAction) {
    s == Crash || s == Boot || s == TempsDone || s == ReturnDone || s == ListOpen || s == StartupDone
  }

  predicate SystemEnabled(s: System, a: SystemAction) {
    match a
    case At(x, b) => x in s && Enabled(s[x], b) && !(b.Startup? && Shared(b.s))
    case Together(g) => Shared(g) && forall x :: x in s ==> StartupEnabled(s[x], g)
  }

  function SystemApply(s: System, a: SystemAction): (t: System)
    requires SystemEnabled(s, a)
  {
    match a
    case At(x, b) => s[x := Apply(s[x], b)]
    case Together(g) => map x | x in s :: StartupApply(s[x], g)
  }

  predicate SystemObeys(rules: set<Rule>, s: System, a: SystemAction) {
    a.At? && a.name in s ==> forall rule :: rule in rules ==> Obeys(rule, s[a.name], a.a)
  }

  predicate SystemRun(s: System, run: seq<SystemAction>, t: System, rules: set<Rule>)
    decreases |run|
  {
    if run == [] then s == t
    else
      && SystemEnabled(s, run[0]) && SystemObeys(rules, s, run[0])
      && SystemRun(SystemApply(s, run[0]), run[1..], t, rules)
  }

  function Empty(names: set<string>): System {
    map x | x in names :: Initial(x)
  }

  ghost predicate AllSafe(s: System) {
    forall x :: x in s ==> Safe(s[x])
  }

  ghost predicate AllSound(s: System) {
    forall x :: x in s ==> Sound(s[x])
  }

  ghost predicate AllTidy(s: System) {
    forall x :: x in s ==> Tidy(s[x])
  }

  lemma SystemStepSafe(s: System, a: SystemAction)
    requires AllSafe(s) && SystemEnabled(s, a)
    ensures AllSafe(SystemApply(s, a)) && SystemApply(s, a).Keys == s.Keys
    ensures forall x :: x in s ==> Preserves(s[x], SystemApply(s, a)[x])
  {
    forall x | x in s ensures Safe(SystemApply(s, a)[x]) && Preserves(s[x], SystemApply(s, a)[x]) {
      match a
      case At(y, b) => if x == y { StepPreserves(s[x], b); }
      case Together(g) => StepPreserves(s[x], Startup(g));
    }
  }

  lemma SystemStepSound(s: System, a: SystemAction)
    requires AllSound(s) && SystemEnabled(s, a) && SystemObeys({PublishOnce, OneEntry, StillOnDisk}, s, a)
    ensures AllSound(SystemApply(s, a)) && SystemApply(s, a).Keys == s.Keys
  {
    forall x | x in s ensures Sound(SystemApply(s, a)[x]) {
      match a
      case At(y, b) => if x == y { StepSound(s[x], b); }
      case Together(g) => StepSound(s[x], Startup(g));
    }
  }

  lemma SystemStepTidy(s: System, a: SystemAction)
    requires AllTidy(s) && SystemEnabled(s, a) && SystemObeys({PublishOnce, AwaitBegin}, s, a)
    ensures AllTidy(SystemApply(s, a)) && SystemApply(s, a).Keys == s.Keys
  {
    hide Tidy;
    forall x | x in s ensures Tidy(SystemApply(s, a)[x]) {
      match a
      case At(y, b) => if x == y { StepTidy(s[x], b); }
      case Together(g) => StepTidy(s[x], Startup(g));
    }
  }

  lemma {:induction false} SystemSafe(s: System, run: seq<SystemAction>, t: System, rules: set<Rule>)
    requires AllSafe(s) && SystemRun(s, run, t, rules)
    ensures AllSafe(t) && t.Keys == s.Keys
    ensures forall x, r :: x in s && Kept(s[x], r) ==> Kept(t[x], r)
    decreases |run|
  {
    if run != [] {
      SystemStepSafe(s, run[0]);
      SystemSafe(SystemApply(s, run[0]), run[1..], t, rules);
    }
  }

  /** No capture of any outbox, under any interleaving and any crashes, loses a record that was
      reported durable: it is in pending, processing or failed, or its receipt was accepted. */
  lemma NoCaptureLosesBytes(names: set<string>, run: seq<SystemAction>, t: System)
    requires SystemRun(Empty(names), run, t, {})
    ensures forall x, r :: x in t && r in t[x].history.reported ==> Kept(t[x], r)
  {
    forall x | x in names ensures Safe(Initial(x)) {
      InitialIsSafe(x);
    }
    SystemSafe(Empty(names), run, t, {});
  }

  lemma {:induction false} SystemSound(s: System, run: seq<SystemAction>, t: System)
    requires AllSound(s) && SystemRun(s, run, t, {PublishOnce, OneEntry, StillOnDisk})
    ensures AllSound(t) && t.Keys == s.Keys
    decreases |run|
  {
    if run != [] {
      SystemStepSound(s, run[0]);
      SystemSound(SystemApply(s, run[0]), run[1..], t);
    }
  }

  lemma {:induction false} SystemTidy(s: System, run: seq<SystemAction>, t: System)
    requires AllTidy(s) && SystemRun(s, run, t, {PublishOnce, AwaitBegin})
    ensures AllTidy(t) && t.Keys == s.Keys
    decreases |run|
  {
    hide Tidy;
    if run != [] {
      SystemStepTidy(s, run[0]);
      SystemTidy(SystemApply(s, run[0]), run[1..], t);
    }
  }

  /** When start-up completes after any orderly run of the whole outbox, every Capture ever begun
      has no open file and exactly one outcome. */
  lemma EveryCaptureConverges(names: set<string>, run: seq<SystemAction>, s: System)
    requires SystemRun(Empty(names), run, s, {PublishOnce, OneEntry, StillOnDisk})
    requires SystemEnabled(s, Together(StartupDone))
    ensures var t := SystemApply(s, Together(StartupDone));
            forall x :: x in t && t[x].history.begun.Some? ==> NothingOpen(t[x]) && exists r :: Outcome(t[x], r)
  {
    forall x | x in names ensures Sound(Initial(x)) {
      InitialIsSound(x);
    }
    SystemSound(Empty(names), run, s);
    hide Sound;
    hide Outcome;
    hide NothingOpen;
    var t := SystemApply(s, Together(StartupDone));
    forall x | x in t && t[x].history.begun.Some? ensures NothingOpen(t[x]) && exists r :: Outcome(t[x], r) {
      assert t[x] == StartupApply(s[x], StartupDone);
      var r := DoneMeansClosed(s[x]);
    }
  }

  /** With two rules alone, in every state of every run: a Capture that is claimed, failed or
      acknowledged has no open metadata on disk. */
  lemma NoClaimWhileOpen(names: set<string>, run: seq<SystemAction>, s: System, x: string)
    requires SystemRun(Empty(names), run, s, {PublishOnce, AwaitBegin})
    requires x in s
    requires s[x].memory.job != Idle || s[x].disk.processing.Some? || s[x].disk.failed.Some? || s[x].history.acked != {}
    ensures s[x].disk.metadata.None?
  {
    forall y | y in names ensures Tidy(Initial(y)) {
    }
    SystemTidy(Empty(names), run, s);
  }
}
