/** The configuration file and its backup: every write is a truncation followed by the new text, a
    crash may come between any two file operations, and what is loaded afterwards matters. */
module ConfigFile {

  /** A parsed configuration; 0 is the empty one. */
  type Config = nat

  type Settings = c: Config | c != 0 witness 1

  /** What reading a file gives: nothing there, only white space, text that does not parse, bytes
      that are not UTF-8, or non-blank text and the mapping it parses to. */
  datatype Content = Absent | Blank | Broken | Garbled | Yaml(config: Config)

  datatype Disk = Disk(primary: Content, bak: Content)

  /** What an interrupted write can leave. */
  predicate Torn(c: Content) {
    c.Blank? || c.Broken? || c.Garbled?
  }

  // ---- loading -------------------------------------------------------------------------

  function Usable(c: Content): Config {
    if c.Yaml? then c.config else 0
  }

  /** `load_config_data` with `_recover_from_backup` */
  function Load(d: Disk): Config {
    match d.primary
    case Absent => 0
    case Yaml(c) => if c != 0 then c else Usable(d.bak)
    case _ => Usable(d.bak)
  }

  // ---- the two operations as traces of disk states -------------------------------------

  /** What an attempt may leave half-written, in order: the backup, the file, the restored file. */
  datatype Tears = Tears(backup: Content, file: Content, restored: Content)

  predicate AllTorn(t: Tears) {
    Torn(t.backup) && Torn(t.file) && Torn(t.restored)
  }

  /** `_write_config`: the backup is replaced only by a non-blank file that parses; a file that is
      not UTF-8 makes the call fail before anything is written. */
  function WriteTrace(d: Disk, data: Config, t: Tears): seq<Disk> {
    if d.primary.Garbled? then [d]
    else if d.primary.Yaml? then
      var saved := d.(bak := d.primary);
      [d, d.(bak := t.backup), saved, saved.(primary := t.file), saved.(primary := Yaml(data))]
    else [d, d.(primary := t.file), d.(primary := Yaml(data))]
  }

  /** `_restore_backup`: copies whatever text the backup holds, if it can be read. */
  function RestoreTrace(d: Disk, t: Tears): seq<Disk> {
    if d.bak.Absent? || d.bak.Garbled? then [d]
    else [d, d.(primary := t.restored), d.(primary := d.bak)]
  }

  function Last(trace: seq<Disk>): Disk
    requires trace != []
  {
    trace[|trace| - 1]
  }

  /** One `apply_config`: the write, then the restore if a worker rejects the new configuration. */
  function Trace(d: Disk, data: Config, rejected: bool, t: Tears): seq<Disk> {
    var write := WriteTrace(d, data, t);
    if rejected && !d.primary.Garbled? then write + RestoreTrace(Last(write), t)[1..] else write
  }

  /** The state after `steps` file operations; a crash leaves the disk there. */
  function At(trace: seq<Disk>, steps: nat): Disk
    requires trace != []
  {
    if steps < |trace| then trace[steps] else Last(trace)
  }

  datatype Attempt = Attempt(data: Settings, rejected: bool, tears: Tears, steps: nat)

  function After(d: Disk, a: Attempt): Disk {
    At(Trace(d, a.data, a.rejected, a.tears), a.steps)
  }

  // ---- the code ------------------------------------------------------------------------

  class ConfigFiles {
    var primary: Content
    var bak: Content
    /** File operations left before the process dies. */
    var steps: nat

    function Now(): Disk
      reads this
    {
      Disk(primary, bak)
    }

    constructor (d: Disk, steps: nat)
      ensures Now() == d && this.steps == steps
    {
      primary, bak := d.primary, d.bak;
      this.steps := steps;
    }

    /** `write_text` or `open(path, "w")` on the backup: truncates, then holds the text. */
    method PutBackup(content: Content, torn: Content)
      modifies this
      ensures Now() == At([old(Now()), old(Now()).(bak := torn), old(Now()).(bak := content)], old(steps))
      ensures steps == if old(steps) < 2 then 0 else old(steps) - 2
    {
      if steps == 0 { return; }
      bak, steps := torn, steps - 1;
      if steps == 0 { return; }
      bak, steps := content, steps - 1;
    }

    method PutPrimary(content: Content, torn: Content)
      modifies this
      ensures Now() == At([old(Now()), old(Now()).(primary := torn), old(Now()).(primary := content)], old(steps))
      ensures steps == if old(steps) < 2 then 0 else old(steps) - 2
    {
      if steps == 0 { return; }
      primary, steps := torn, steps - 1;
      if steps == 0 { return; }
      primary, steps := content, steps - 1;
    }

    /** `_write_config` */
    method WriteConfig(data: Config, t: Tears) returns (ok: bool)
      modifies this
      ensures Now() == At(WriteTrace(old(Now()), data, t), old(steps))
      ensures ok == !old(primary).Garbled? && (!ok ==> Now() == old(Now()))
      ensures ok && old(steps) >= 4 ==> primary == Yaml(data) && bak == if old(primary).Yaml? then old(primary) else old(bak)
      ensures var used := |WriteTrace(old(Now()), data, t)| - 1;
        steps == if old(steps) < used then 0 else old(steps) - used
    {
      if primary.Garbled? { return false; }
      if !primary.Absent? && !primary.Blank? {
        if primary.Yaml? { PutBackup(primary, t.backup); }
      }
      PutPrimary(Yaml(data), t.file);
      ok := true;
    }

    /** `_restore_backup` */
    method RestoreBackup(t: Tears)
      modifies this
      ensures Now() == At(RestoreTrace(old(Now()), t), old(steps)) && bak == old(bak)
      ensures old(steps) >= 2 ==> primary == if bak.Absent? || bak.Garbled? then old(primary) else bak
    {
      if bak.Absent? || bak.Garbled? { return; }
      PutPrimary(bak, t.restored);
    }

    /** `apply_config` with the worker's verdict. */
    method ApplyConfig(a: Attempt)
      requires steps == a.steps
      modifies this
      ensures Now() == After(old(Now()), a)
    {
      var ok := WriteConfig(a.data, a.tears);
      if ok && a.rejected { RestoreBackup(a.tears); }
    }
  }

  // ---- when a crash is survived --------------------------------------------------------

  /** The state in which nothing can go wrong: not an empty or missing file beside a backup that
      still holds a configuration. */
  predicate Sound(d: Disk) {
    (d.primary == Yaml(0) || d.primary == Absent) ==> Usable(d.bak) == 0
  }

  lemma PointsStaySound(d: Disk, data: Settings, rejected: bool, t: Tears)
    requires Sound(d) && AllTorn(t)
    ensures forall p :: p in Trace(d, data, rejected, t) ==> Sound(p) && (Load(p) == Load(d) || Load(p) == data)
  {
    var write := WriteTrace(d, data, t);
    assert forall p :: p in write ==> Sound(p) && (Load(p) == Load(d) || Load(p) == data);
    if rejected && !d.primary.Garbled? {
      var restore := RestoreTrace(Last(write), t);
      RestorePoints(d, Last(write), data, t);
      assert forall p :: p in restore[1..] ==> p in restore;
      assert forall p :: p in Trace(d, data, rejected, t) ==> p in write || p in restore[1..];
    }
  }

  lemma RestorePoints(d: Disk, e: Disk, data: Settings, t: Tears)
    requires Sound(d) && AllTorn(t) && !d.primary.Garbled? && e == Last(WriteTrace(d, data, t))
    ensures forall p :: p in RestoreTrace(e, t) ==> Sound(p) && (Load(p) == Load(d) || Load(p) == data)
  {
    assert e == Disk(Yaml(data), if d.primary.Yaml? then d.primary else d.bak);
    hide WriteTrace;
    var r := RestoreTrace(e, t);
    if !e.bak.Absent? && !e.bak.Garbled? {
      assert r == [e, e.(primary := t.restored), e.(primary := e.bak)];
    }
  }

  /** Every crash point of every change, accepted or rejected, loads the configuration loaded before
      or the one being installed. */
  ghost predicate CrashSafe(d: Disk) {
    forall a: Attempt :: AllTorn(a.tears) ==> Load(After(d, a)) == Load(d) || Load(After(d, a)) == a.data
  }

  /** Exactly the sound states are crash-safe. */
  lemma CrashSafeWhenSound(d: Disk)
    ensures CrashSafe(d) <==> Sound(d)
  {
    hide Load, WriteTrace, RestoreTrace, Trace, Sound;
    if Sound(d) {
      forall a: Attempt | AllTorn(a.tears) ensures Load(After(d, a)) == Load(d) || Load(After(d, a)) == a.data {
        TraceIsNonEmpty(d, a);
        PointsStaySound(d, a.data, a.rejected, a.tears);
        assert After(d, a) in Trace(d, a.data, a.rejected, a.tears);
      }
    } else {
      var a := LosingAttempt(d);
    }
  }

  lemma TraceIsNonEmpty(d: Disk, a: Attempt)
    ensures Trace(d, a.data, a.rejected, a.tears) != []
  {
  }

  lemma LosingAttempt(d: Disk) returns (a: Attempt)
    requires !Sound(d)
    ensures AllTorn(a.tears) && Load(After(d, a)) != Load(d) && Load(After(d, a)) != a.data
  {
    var lost := Usable(d.bak);
    a := Attempt(lost + 1, false, Tears(Blank, Blank, Blank), 1);
  }

  // ---- whole histories -----------------------------------------------------------------

  function Run(d: Disk, attempts: seq<Attempt>): Disk {
    if attempts == [] then d else After(Run(d, attempts[..|attempts| - 1]), attempts[|attempts| - 1])
  }

  lemma AfterSound(d: Disk, a: Attempt)
    requires Sound(d) && AllTorn(a.tears)
    ensures Sound(After(d, a)) && (Load(After(d, a)) == Load(d) || Load(After(d, a)) == a.data)
  {
    hide Load, WriteTrace, RestoreTrace, Trace, Sound;
    TraceIsNonEmpty(d, a);
    PointsStaySound(d, a.data, a.rejected, a.tears);
    assert After(d, a) in Trace(d, a.data, a.rejected, a.tears);
  }

  /** Whatever sequence of changes, each accepted, rejected or cut short anywhere, what is loaded at
      the end is what was loaded at the start or one of the configurations installed: a configuration,
      once there, is never lost. */
  lemma {:induction false} ConfigIsNeverLost(d: Disk, attempts: seq<Attempt>)
    requires Sound(d) && forall a :: a in attempts ==> AllTorn(a.tears)
    ensures Sound(Run(d, attempts))
    ensures Load(Run(d, attempts)) == Load(d) || exists a :: a in attempts && Load(Run(d, attempts)) == a.data
    ensures Load(d) != 0 ==> Load(Run(d, attempts)) != 0
  {
    hide Load, After, Sound;
    if attempts != [] {
      var init, a := attempts[..|attempts| - 1], attempts[|attempts| - 1];
      assert attempts == init + [a];
      ConfigIsNeverLost(d, init);
      AfterSound(Run(d, init), a);
    }
  }

  // ---- when a rejected change is undone ------------------------------------------------

  /** A change accepted and not cut short is loaded. */
  lemma AppliedIsLoaded(d: Disk, data: Settings, t: Tears)
    ensures Load(Last(Trace(d, data, false, t))) == data <==> !d.primary.Garbled? || Load(d) == data
  {
  }

  /** The backup the restore will find holds readable text. */
  predicate Readable(c: Content) {
    !c.Absent? && !c.Garbled?
  }

  /** A rejected change that runs to its end gives back what was loaded before exactly when the file
      held a configuration, or held none and the backup is readable and no newer than that. */
  lemma RejectedIsUndone(d: Disk, data: Settings, t: Tears)
    requires data != Load(d)
    ensures Load(Last(Trace(d, data, true, t))) == Load(d) <==>
      match d.primary {
        case Garbled => true
        case Yaml(c) => c != 0 || Usable(d.bak) == 0
        case Absent => Readable(d.bak) && Usable(d.bak) == 0
        case _ => Readable(d.bak)
      }
  {
    var e := Last(WriteTrace(d, data, t));
    if !d.primary.Garbled? {
      assert e == Disk(Yaml(data), if d.primary.Yaml? then d.primary else d.bak);
      assert Last(Trace(d, data, true, t)) == Last(RestoreTrace(e, t));
    }
  }
}
