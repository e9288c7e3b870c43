/** The configuration store: all-or-nothing merge patches, and persistence by temporary file and rename, under any
    failing or interrupted file step. */
module ConfigStore {
  import opened Wrappers
  import opened JsonPatch
  import opened Config

  /** A file's bytes: JSON text, or anything that does not parse. */
  datatype FileText = Parses(j: Json) | Garbage

  /** What happens to one save: nothing, a step returns an error, or the process dies just before a step or after the last. */
  datatype Fault = NoFault | Fails(step: SaveStep) | Crash(before: CrashPoint)

  type SaveStep = s: nat | MKDIR <= s <= RENAME witness MKDIR
  type CrashPoint = s: nat | MKDIR <= s <= RENAME + 1 witness MKDIR

  const MKDIR := 1
  const CREATE_TEMP := 2
  const CHMOD := 3
  const WRITE := 4
  const SYNC := 5
  const CLOSE := 6
  const RENAME := 7

  /** Whether the save gets past `step`. */
  predicate Survives(fault: Fault, step: nat) {
    match fault
    case NoFault => true
    case Fails(s) => step < s
    case Crash(s) => step < s
  }

  /** How the save ends at `step`, if it does. */
  function Cut(fault: Fault, step: SaveStep): Option<SaveResult> {
    if fault == Crash(step) then Some(Died)
    else if fault == Fails(step) then Some(SaveError)
    else None
  }

  class Disk {
    var file: Option<FileText>
    var tmp: Option<FileText>

    constructor (file: Option<FileText>)
      ensures this.file == file
    {
      this.file, tmp := file, None;
    }
  }

  datatype SaveResult = Saved | SaveError | Died

  /** The configuration that a process starting on this file gets; None when it refuses to start. */
  function Load(file: Option<FileText>): Option<Config> {
    match file
    case None => Some(DEFAULT)
    case Some(Garbage) => None
    case Some(Parses(j)) =>
      match Decode(DEFAULT, j, false)
      case Some(c) => if Valid(c) then Some(c) else None
      case None => None
  }

  datatype Outcome =
    | Applied(keys: set<Path>)
    | Unchanged
    | Rejected
    | SaveFailed
    | Crashed

  ghost function Merged(cur: Config, patch: Json): Json
    requires patch.Obj?
  {
    Obj(MergeFields(Encode(cur).fields, patch))
  }

  /** The configuration that a patch asks for; None when the store must reject it. `patch` is None for text that is not JSON. */
  ghost function Target(cur: Config, patch: Option<Json>): Option<Config> {
    if patch.None? || !patch.value.Obj? then None
    else match Decode(ZERO, Merged(cur, patch.value), true)
      case Some(next) => if Valid(next) then Some(next) else None
      case None => None
  }

  ghost function SavedFile(file: Option<FileText>, next: Config, fault: Fault): Option<FileText> {
    if Survives(fault, RENAME) then Some(Parses(Encode(next))) else file
  }

  class Store {
    var cur: Config
    const disk: Disk
    /** The configurations passed to the change callback. */
    var changes: seq<Config>

    constructor (disk: Disk)
      requires Load(disk.file).Some?
      ensures this.disk == disk && Load(disk.file) == Some(cur) && changes == []
    {
      this.disk := disk;
      cur, changes := DEFAULT, [];
      new;
      match disk.file {
        case None =>
        case Some(text) => cur := Decode(DEFAULT, text.j, false).value;
      }
    }

    method Save(c: Config, fault: Fault) returns (r: SaveResult)
      modifies disk
      ensures disk.file == SavedFile(old(disk.file), c, fault)
      ensures r == match fault case NoFault => Saved case Fails(_) => SaveError case Crash(_) => Died
    {
      var cut := Cut(fault, MKDIR);
      if cut.Some? { return cut.value; }
      cut := Cut(fault, CREATE_TEMP);
      if cut.Some? { return cut.value; }
      disk.tmp := Some(Garbage);
      cut := Cut(fault, CHMOD);
      if cut.None? { cut := Cut(fault, WRITE); }
      if cut.None? {
        disk.tmp := Some(Parses(Encode(c)));
        cut := Cut(fault, SYNC);
      }
      if cut.None? { cut := Cut(fault, CLOSE); }
      if cut.None? { cut := Cut(fault, RENAME); }
      if cut == None {
        disk.file, disk.tmp := disk.tmp, None;
        return if fault == Crash(RENAME + 1) then Died else Saved;
      }
      if cut != Some(Died) {
        disk.tmp := None;  // the deferred os.Remove
      }
      r := cut.value;
    }

    method ApplyMergePatch(patch: Option<Json>, fault: Fault) returns (r: Outcome, ghost next: Option<Config>)
      modifies this, disk
      ensures next == Target(old(cur), patch)
      ensures next.None? <==> r == Rejected
      ensures r == Unchanged ==> next == Some(old(cur))
      ensures Step(World(Some(old(cur)), old(disk.file)), Patch(patch, fault))
           == World(if r == Crashed then None else Some(cur), disk.file)
      ensures next.Some? ==>
                var keys := Diff(Encode(old(cur)), Merged(old(cur), patch.value));
                && (r == Unchanged <==> keys == {})
                && (r.Applied? <==> keys != {} && fault == NoFault)
                && (r.Applied? ==> r.keys == keys)
      ensures changes == if r.Applied? then old(changes) + [cur] else old(changes)
    {
      hide Decode, Validate, Encode, MergeFields, Diff;
      next := Target(cur, patch);
      if patch.None? || !patch.value.Obj? {
        return Rejected, next;
      }
      var curTree := Encode(cur);
      var merged := MergePatch(curTree.fields, patch.value);
      var decoded := Decode(ZERO, Obj(merged), true);
      if decoded.None? || !Valid(decoded.value) {
        return Rejected, next;
      }
      var applied := AppliedKeys(curTree, Obj(merged));
      if |applied| == 0 {
        DiffEmptyIffEqual(curTree, Obj(merged));
        DecodeEncode(ZERO, cur, true);
        return Unchanged, next;
      }
      r := Install(decoded.value, applied, fault);
    }

    /** The differing keys, from the root. */
    method AppliedKeys(a: Json, b: Json) returns (applied: seq<Path>)
      requires a.Obj? && b.Obj?
      ensures (set p | p in applied) == Diff(a, b)
      ensures applied == [] <==> Diff(a, b) == {}
    {
      hide Diff;
      applied := DiffKeys([], a, b);
      ghost var keys := Diff(a, b);
      assert forall p: Path :: [] + p == p;
      assert forall p :: p in Prefixed([], keys) <==> p in keys;
      if applied != [] {
        assert applied[0] in keys;
      }
    }

    /** Saves and then installs; a save that fails leaves memory and file alone. */
    method Install(c: Config, applied: seq<Path>, fault: Fault) returns (r: Outcome)
      modifies this, disk
      ensures disk.file == SavedFile(old(disk.file), c, fault)
      ensures r == match fault case NoFault => Applied(set p | p in applied) case Fails(_) => SaveFailed case Crash(_) => Crashed
      ensures cur == if fault == NoFault then c else old(cur)
      ensures changes == if fault == NoFault then old(changes) + [c] else old(changes)
    {
      hide Encode;
      var saved := Save(c, fault);
      match saved {
        case SaveError => return SaveFailed;
        case Died => return Crashed;
        case Saved =>
      }
      cur := c;
      changes := changes + [c];
      r := Applied(set p | p in applied);
    }
  }

  /** What a patch asks for: the standard's MergePatch of the encoded configuration with the patch's masked passwords taken
      out, read strictly and valid. */
  lemma TargetMeans(cur: Config, patch: Json, next: Config)
    requires patch.Obj?
    ensures Target(cur, Some(patch)) == Some(next) <==>
            Decode(ZERO, Rfc7386(Encode(cur), StripMask(patch)), true) == Some(next) && Valid(next)
  {
    hide Decode, Validate, Encode, MergeFields, Rfc7386, StripMask;
    MergeIsRfcOfStripped(Encode(cur).fields, patch);
  }

  /** Nothing is stored before the rename, everything from it on. */
  lemma RenameDecides(file: Option<FileText>, next: Config, step: SaveStep, point: CrashPoint)
    ensures SavedFile(file, next, NoFault) == Some(Parses(Encode(next)))
    ensures SavedFile(file, next, Fails(step)) == file
    ensures SavedFile(file, next, Crash(point)) == if point == 8 then Some(Parses(Encode(next))) else file
  {
  }

  // ---------- whole runs ----------

  datatype Event = Patch(patch: Option<Json>, fault: Fault) | Restart

  /** A running process and its volume; `cur` is None between a crash and the next start. */
  datatype World = World(cur: Option<Config>, file: Option<FileText>)

  ghost predicate Changes(cur: Config, patch: Option<Json>) {
    Target(cur, patch).Some? && Diff(Encode(cur), Merged(cur, patch.value)) != {}
  }

  ghost function Step(w: World, e: Event): World {
    match e
    case Restart => w.(cur := Load(w.file))
    case Patch(patch, fault) =>
      if w.cur.None? || !Changes(w.cur.value, patch) then w
      else
        var next := Target(w.cur.value, patch).value;
        World(if Survives(fault, RENAME + 1) then Some(next) else if fault.Fails? then w.cur else None,
              SavedFile(w.file, next, fault))
  }

  ghost function Run(w: World, es: seq<Event>): World
    decreases |es|
  {
    if es == [] then w else Run(Step(w, es[0]), es[1..])
  }

  /** The volume loads, and a running process holds what it loads to. */
  ghost predicate Consistent(w: World) {
    Load(w.file).Some? && (w.cur.Some? ==> w.cur == Load(w.file))
  }

  lemma SavedLoads(c: Config)
    requires Valid(c)
    ensures Load(Some(Parses(Encode(c)))) == Some(c)
  {
    DecodeEncode(DEFAULT, c, false);
  }

  /** One patch under one fault: whatever happens, a restart finds the old configuration or the whole new one. */
  lemma PatchIsAtomic(w: World, patch: Option<Json>, fault: Fault)
    requires Consistent(w) && w.cur.Some?
    ensures var w' := Step(w, Patch(patch, fault));
            && Consistent(w')
            && (Load(w'.file) == w.cur || (Changes(w.cur.value, patch) && Load(w'.file) == Target(w.cur.value, patch)))
            && (fault == NoFault && Changes(w.cur.value, patch) ==> w'.cur == Target(w.cur.value, patch))
            && (fault.Fails? || Target(w.cur.value, patch).None? ==> w' == w)
  {
    hide Decode, Validate, Encode, MergeFields, Diff;
    if Changes(w.cur.value, patch) {
      SavedLoads(Target(w.cur.value, patch).value);
    }
  }

  /** Over any run of patches, failing steps, crashes and restarts the current configuration is valid and is the stored one,
      and the process can always start again. */
  lemma {:induction false} RunStaysValid(w: World, es: seq<Event>)
    requires Consistent(w)
    ensures var w' := Run(w, es);
            Consistent(w') && Load(w'.file).Some? && (w'.cur.Some? ==> Valid(w'.cur.value))
    decreases |es|
  {
    if es != [] {
      if es[0].Patch? && w.cur.Some? { PatchIsAtomic(w, es[0].patch, es[0].fault); }
      RunStaysValid(Step(w, es[0]), es[1..]);
    } else if w.file.None? {
      DefaultIsValid();
    }
  }

  lemma DefaultIsValid()
    ensures Valid(DEFAULT)
  {
    assert DEFAULT.uplink.mode == "host" && DEFAULT.expressvpn.protocol == "auto";
  }
}
