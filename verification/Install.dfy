// Commissioning, its rollback, and uninstalling (scripts/install.sh,
// scripts/uninstall.sh), over the managed files of Manifest and the Hyprland
// entry point of HyprlandEntry.

module Install {
  import opened Optional
  import opened HyprlandEntry
  import opened Manifest

  // `hypr` is there for production commissioning only; otherwise `config` and
  // `commissioning` are seeds, which never replace what the user has. `shell`
  // says whether the Quickshell sources, installed below `root`, are there.
  datatype Plan =
    Plan(managed: seq<Item>, config: Item, commissioning: Item, hypr: Option<Item>, shell: bool, root: string)

  // ---- Sweeping recorded files away ----

  // Uninstall sweeps everything, an install the Quickshell files it no longer has.
  datatype Scope = Everything | Obsolete(root: string, current: set<string>)

  predicate InScope(scope: Scope, target: string) {
    match scope
    case Everything => target != ""
    case Obsolete(root, current) => root <= target && target !in current
  }

  function SweptOne(h: Home, r: Record, scope: Scope): Home {
    if !InScope(scope, r.target) then h
    else if r.target !in h.files then h.(manifest := Unrecorded(h.manifest, r.target))
    else if Untouched(h.files, r) then
      h.(files := h.files - {r.target}, manifest := Unrecorded(h.manifest, r.target))
    else h
  }

  function Swept(h: Home, records: seq<Record>, scope: Scope): Home
    decreases |records|
  {
    if records == [] then h else Swept(SweptOne(h, records[0], scope), records[1..], scope)
  }

  // The first n records swept, and perhaps the file of the next one removed
  // while its record is still there.
  predicate SweptPartly(h: Home, scope: Scope, n: nat, after: Home) {
    && n < |Records(h.manifest)|
    && var part := Swept(h, Records(h.manifest)[..n], scope);
    || after == part
    || after == SweptOne(part, Records(h.manifest)[n], scope).(manifest := part.manifest)
  }

  lemma {:induction false} SweptInTwoParts(h: Home, a: seq<Record>, b: seq<Record>, scope: Scope)
    ensures Swept(h, a + b, scope) == Swept(Swept(h, a, scope), b, scope)
    decreases |a|
  {
    if a == [] {
      assert a + b == b;
    } else {
      assert (a + b)[1..] == a[1..] + b;
      SweptInTwoParts(SweptOne(h, a[0], scope), a[1..], b, scope);
    }
  }

  lemma SweptNext(h: Home, records: seq<Record>, n: nat, scope: Scope)
    requires n < |records|
    ensures Swept(h, records[..n + 1], scope) == SweptOne(Swept(h, records[..n], scope), records[n], scope)
  {
    assert records[..n + 1] == records[..n] + [records[n]];
    SweptInTwoParts(h, records[..n], [records[n]], scope);
  }

  predicate Stays(files: Files, scope: Scope, r: Record) {
    !InScope(scope, r.target) || (r.target in files && !Untouched(files, r))
  }

  function Kept(files: Files, records: seq<Record>, scope: Scope): seq<Record> {
    if records == [] then []
    else (if Stays(files, scope, records[0]) then [records[0]] else []) + Kept(files, records[1..], scope)
  }

  // ---- The Hyprland part of an uninstall ----

  function Census(entry: EntryPoint): Counts {
    Count(false, LinesOf(entry))
  }

  predicate OwnedOnce(c: Counts) {
    c.inputs == 1 && c.modules == 1 && c.adjacents == 1
  }

  predicate EntryRetains(entry: EntryPoint, marker: bool) {
    var c := Census(entry);
    c.mentions > 0 && (entry.LinkedLua? || !marker || !OwnedOnce(c) || c.mentions != 1)
  }

  predicate ModifiedUnit(h: Home, unit: string) {
    var digest := Recorded(h.manifest, unit);
    digest.Some? && unit in h.files && !Untouched(h.files, Record(unit, digest.value))
  }

  predicate Refuses(h: Home, units: seq<string>) {
    (exists u :: u in units && ModifiedUnit(h, u)) || EntryRetains(h.entry, h.marker)
  }

  function Unrequired(h: Home): Home {
    if h.marker && h.entry.Lua? && OwnedOnce(Census(h.entry))
    then h.(entry := Lua(Dropped(false, h.entry.lines), true, h.entry.mode), marker := false)
    else h.(marker := false)
  }

  function Uninstalled(h: Home): Home {
    Swept(Unrequired(h), Records(h.manifest), Everything)
  }

  // ---- Commissioning ----

  function ManagedItems(plan: Plan): seq<Item> {
    plan.managed + if plan.hypr.Some? then [plan.config, plan.commissioning] else []
  }

  // What must hold before anything is changed.
  predicate Acceptable(h: Home, plan: Plan, activate: bool) {
    && (forall i :: i in ManagedItems(plan) ==> Free(h, i.target))
    && (plan.hypr.Some? ==> Free(h, plan.hypr.value.target) && EntryAccepts(h.entry, activate))
  }

  predicate EntryAccepts(entry: EntryPoint, activate: bool) {
    var c := Census(entry);
    entry.Lua? && c.inputs == 1 && c.modules <= 1 && (c.modules == 1 ==> c.adjacents == 1 && activate)
  }

  function Required(h: Home): Home {
    if h.entry.Lua? && Census(h.entry).modules == 0
    then h.(entry := Lua(Inserted(h.entry.lines), true, h.entry.mode), marker := true)
    else h
  }

  function Installed(h: Home, plan: Plan, activate: bool): Home {
    var put := PutAll(h, ManagedItems(plan));
    if plan.hypr.None? then Seeded(Seeded(put, plan.config), plan.commissioning)
    else
      var staged := Put(put, plan.hypr.value);
      if activate then Required(staged) else staged
  }

  // Quickshell files an earlier install recorded and this one no longer has go
  // once the install has committed.
  function Retired(h: Home, plan: Plan): Home {
    if plan.shell then Swept(h, Records(h.manifest), RetireScope(plan)) else h
  }

  function RetireScope(plan: Plan): Scope {
    Obsolete(plan.root, Targets(plan.managed))
  }

  // What a failed activation saves first: each regular file, or that there is none.
  type Snapshot = seq<(string, Option<Node>)>

  function SavedNode(files: Files, target: string): Option<Node> {
    if target in files && files[target].File? then Some(files[target]) else None
  }

  function SavedTargets(h: Home, plan: Plan): seq<string> {
    TargetList(ManagedItems(plan))
    + if plan.hypr.Some? then [] else Absent(h.files, plan.config.target) + Absent(h.files, plan.commissioning.target)
  }

  function TargetList(items: seq<Item>): seq<string> {
    seq(|items|, i requires 0 <= i < |items| => items[i].target)
  }

  function Absent(files: Files, target: string): seq<string> {
    if target in files then [] else [target]
  }

  function RestoredFiles(files: Files, saved: Snapshot): Files
    decreases |saved|
  {
    if saved == [] then files
    else
      var (target, node) := saved[0];
      RestoredFiles(if node.Some? then files[target := node.value] else files - {target}, saved[1..])
  }

  predicate SavedFrom(files: Files, saved: Snapshot) {
    forall i :: 0 <= i < |saved| ==> saved[i].1 == SavedNode(files, saved[i].0)
  }

  function Covered(saved: Snapshot): set<string> {
    set s | s in saved :: s.0
  }

  // The Hyprland side of a rollback: the entry point, the module's content, if
  // it was there, with its recorded hash, and the marker.
  datatype HyprBackup = HyprBackup(entry: EntryPoint, hypr: Option<string>, hash: Option<Digest>, marker: bool)

  function HyprBackupOf(h: Home, target: string): HyprBackup {
    if target in h.files && h.files[target].File?
    then HyprBackup(h.entry, Some(h.files[target].content), Recorded(h.manifest, target), h.marker)
    else HyprBackup(h.entry, None, None, h.marker)
  }

  const MODULE_MODE := 0x1A4 // 0644

  // What can differ once an activation has started to change things.
  ghost predicate Disturbed(before: Home, after: Home, plan: Plan, saved: seq<string>, backup: Option<HyprBackup>)
    requires backup.Some? ==> plan.hypr.Some?
  {
    && (forall p :: p !in saved && (backup.None? || p != plan.hypr.value.target) ==>
      Lookup(after.files, p) == Lookup(before.files, p))
    && (backup.Some? ==> backup.value == HyprBackupOf(before, plan.hypr.value.target))
    && (backup.None? ==> after.entry == before.entry && after.marker == before.marker)
  }

  // Only these paths and what is recorded of them differ.
  ghost predicate OnlyTouched(before: Home, after: Home, targets: set<string>) {
    && after.entry == before.entry && after.marker == before.marker
    && forall p :: p !in targets ==> Lookup(after.files, p) == Lookup(before.files, p)
  }

  function RolledBack(h: Home, saved: Snapshot, ledger: Ledger, backup: Option<HyprBackup>, plan: Plan): Home
    requires backup.Some? ==> plan.hypr.Some?
  {
    var files := RestoredFiles(h.files, saved);
    if backup.None? then Home(files, ledger, h.entry, h.marker)
    else
      var b, target := backup.value, plan.hypr.value.target;
      Home(if b.hypr.Some? then files[target := File(b.hypr.value, MODULE_MODE)] else files - {target},
        ledger, b.entry, b.marker)
  }

  // The module comes back with the mode the installer gives it.
  function ModuleRemoded(h: Home, plan: Plan): Home {
    if plan.hypr.Some? && plan.hypr.value.target in h.files && h.files[plan.hypr.value.target].File?
    then h.(files := h.files[plan.hypr.value.target := h.files[plan.hypr.value.target].(mode := MODULE_MODE)])
    else h
  }

  function AllTargets(plan: Plan): set<string> {
    Targets(plan.managed) + {plan.config.target, plan.commissioning.target}
    + if plan.hypr.Some? then {plan.hypr.value.target} else {}
  }

  // A seed that is neither a regular file nor a link stops the install.
  predicate SeedBlocked(h: Home, item: Item) {
    item.target in h.files && h.files[item.target].Directory?
  }

  // The seeds are no part of the preflight.
  predicate Stopped(h: Home, plan: Plan) {
    plan.hypr.None? && (SeedBlocked(h, plan.config) || SeedBlocked(h, plan.commissioning))
  }

  // What a stopped install leaves: every managed file, and the config if only
  // the commissioning seed is blocked and the user had none.
  function Partial(h: Home, plan: Plan): Home {
    var put := PutAll(h, plan.managed);
    if SeedBlocked(h, plan.config) then put else Seeded(put, plan.config)
  }

  predicate WellFormed(h: Home, plan: Plan) {
    && Sound(h.manifest)
    && (plan.hypr.Some? ==> plan.hypr.value.target !in Targets(ManagedItems(plan)))
    && {plan.config.target, plan.commissioning.target} !! Targets(plan.managed)
    && plan.config.target != plan.commissioning.target
    && (forall t :: t in AllTargets(plan) && t !in Targets(plan.managed) ==> !(plan.root <= t))
  }

  lemma SeedsAreUnmanaged(h: Home, plan: Plan)
    requires WellFormed(h, plan)
    ensures var put := PutAll(h, plan.managed);
      && (SeedBlocked(put, plan.config) <==> SeedBlocked(h, plan.config))
      && (SeedBlocked(put, plan.commissioning) <==> SeedBlocked(h, plan.commissioning))
  {
    PutAllMeaning(h, plan.managed, plan.config.target);
    PutAllMeaning(h, plan.managed, plan.commissioning.target);
    ItemForMeaning(plan.managed, plan.config.target);
    ItemForMeaning(plan.managed, plan.commissioning.target);
  }

  lemma FreeAfterPut(h: Home, item: Item, target: string)
    requires Sound(h.manifest) && Free(h, target)
    ensures Sound(Put(h, item).manifest) && Free(Put(h, item), target)
  {
    WriteThenRead(h.manifest, item.target, Digest(item.content), target);
  }

  // A path that was saved comes back as it was; any other stays as it is.
  lemma {:induction false} RestoredMeaning(before: Files, files: Files, saved: Snapshot, p: string)
    requires SavedFrom(before, saved)
    ensures Lookup(RestoredFiles(files, saved), p)
      == if p in Covered(saved) then SavedNode(before, p) else Lookup(files, p)
    decreases |saved|
  {
    if saved != [] {
      var (target, node) := saved[0];
      assert forall s :: s in saved <==> s == saved[0] || s in saved[1..];
      RestoredMeaning(before, if node.Some? then files[target := node.value] else files - {target}, saved[1..], p);
    }
  }

  // A rollback puts everything back as it was before the activation, except
  // that a module with another mode than the installer's comes back with that.
  lemma RollbackPutsBack(before: Home, after: Home, plan: Plan, saved: Snapshot, backup: Option<HyprBackup>)
    requires backup.Some? ==> plan.hypr.Some? && Free(before, plan.hypr.value.target)
    requires SavedFrom(before.files, saved)
    requires forall p :: p in Covered(saved) ==> p !in before.files || before.files[p].File?
    requires exists targets: seq<string> ::
      Disturbed(before, after, plan, targets, backup) && forall t :: t in targets <==> t in Covered(saved)
    ensures RolledBack(after, saved, before.manifest, backup, plan)
      == if backup.Some? then ModuleRemoded(before, plan) else before
    ensures before == ModuleRemoded(before, plan) <==>
      (plan.hypr.None? || plan.hypr.value.target !in before.files || !before.files[plan.hypr.value.target].File?
        || before.files[plan.hypr.value.target].mode == MODULE_MODE)
  {
    var expected := if backup.Some? then ModuleRemoded(before, plan) else before;
    var rolled := RolledBack(after, saved, before.manifest, backup, plan);
    forall p ensures Lookup(rolled.files, p) == Lookup(expected.files, p) {
      RestoredMeaning(before.files, after.files, saved, p);
    }
    SameFiles(rolled.files, expected.files);
    if plan.hypr.Some? && plan.hypr.value.target in before.files && before == ModuleRemoded(before, plan) {
      assert before.files[plan.hypr.value.target] == ModuleRemoded(before, plan).files[plan.hypr.value.target];
    }
  }

  lemma SameFiles(a: Files, b: Files)
    requires forall p :: Lookup(a, p) == Lookup(b, p)
    ensures a == b
  {
    assert forall p :: (p in a <==> Lookup(a, p).Some?) && (p in b <==> Lookup(b, p).Some?);
    assert forall p | p in a :: Lookup(a, p) == Some(a[p]) && Lookup(b, p) == Some(b[p]);
  }

  lemma SavedAreFree(h: Home, plan: Plan, activate: bool, saved: Snapshot)
    requires Acceptable(h, plan, activate)
    requires |saved| == |SavedTargets(h, plan)|
    requires forall i :: 0 <= i < |saved| ==> saved[i].0 == SavedTargets(h, plan)[i]
    ensures forall t :: t in SavedTargets(h, plan) <==> t in Covered(saved)
    ensures forall p :: p in Covered(saved) ==> p !in h.files || h.files[p].File?
  {
    var targets := SavedTargets(h, plan);
    TargetsAreListed(ManagedItems(plan));
    forall t | t in targets ensures t in Covered(saved) {
      var i :| 0 <= i < |targets| && targets[i] == t;
      assert saved[i] in saved;
    }
    forall t | t in Covered(saved) ensures t in targets && (t !in h.files || h.files[t].File?) {
      var i :| 0 <= i < |saved| && saved[i].0 == t;
      assert targets[i] == t;
    }
  }

  lemma TargetsAreListed(items: seq<Item>)
    ensures forall t :: t in Targets(items) <==> t in TargetList(items)
  {
    forall t | t in Targets(items) ensures t in TargetList(items) {
      var i :| 0 <= i < |items| && items[i].target == t;
      assert TargetList(items)[i] == t;
    }
    forall t | t in TargetList(items) ensures t in Targets(items) {
      var i :| 0 <= i < |items| && TargetList(items)[i] == t;
      assert items[i] in items;
    }
  }

  // ---- The scripts ----

  // The two awk programs, line by line.
  method InsertBelowInputs(lines: seq<Line>) returns (output: seq<Line>)
    ensures output == Inserted(lines)
  {
    output := [];
    assert lines[0..] == lines;
    for i := 0 to |lines|
      invariant output + Inserted(lines[i..]) == Inserted(lines)
    {
      InsertedFrom(lines, i);
      output := output + [lines[i]];
      if lines[i].InputRequire? {
        output := output + [REQUIRE];
      }
    }
    assert lines[|lines|..] == [];
  }

  lemma InsertedFrom(lines: seq<Line>, i: nat)
    requires i < |lines|
    ensures Inserted(lines[i..])
      == [lines[i]] + ((if lines[i].InputRequire? then [REQUIRE] else []) + Inserted(lines[i + 1..]))
  {
    assert lines[i..][1..] == lines[i + 1..];
  }

  method DropBelowInputs(lines: seq<Line>) returns (output: seq<Line>)
    ensures output == Dropped(false, lines)
  {
    output := [];
    var previous: Option<Line> := None;
    assert lines[0..] == lines;
    for i := 0 to |lines|
      invariant output + Dropped(previous.Some? && previous.value.InputRequire?, lines[i..]) == Dropped(false, lines)
    {
      assert lines[i..][1..] == lines[i + 1..];
      if !(previous.Some? && previous.value.InputRequire? && lines[i].ModuleRequire?) {
        output := output + [lines[i]];
      }
      previous := Some(lines[i]);
    }
    assert lines[|lines|..] == [];
  }

  class Machine {
    var files: Files
    var manifest: Ledger
    var entry: EntryPoint
    var marker: bool

    function Value(): Home
      reads this
    {
      Home(files, manifest, entry, marker)
    }

    constructor (h: Home)
      ensures Value() == h
    {
      files, manifest, entry, marker := h.files, h.manifest, h.entry, h.marker;
    }

    // The last recorded line for a target wins.
    method ManifestHash(target: string) returns (value: Option<Digest>)
      ensures value == Recorded(manifest, target)
    {
      value := None;
      if manifest.Some? {
        var records := manifest.value;
        for i := 0 to |records|
          invariant value == RecordedIn(records[..i], target)
        {
          assert records[..i + 1][..i] == records[..i];
          if records[i].target == target {
            value := Some(records[i].digest);
          }
        }
        assert records[..|records|] == records;
      }
    }

    method WriteManifestEntry(target: string, digest: Digest)
      modifies `manifest
      ensures manifest == Written(old(manifest), target, digest)
    {
      var temp: seq<Record> := [];
      if manifest.Some? {
        temp := Others(manifest.value, target);
      }
      manifest := Some(temp + [Record(target, digest)]);
    }

    method RemoveManifestEntry(target: string)
      modifies `manifest
      ensures manifest == Unrecorded(old(manifest), target)
    {
      if manifest.Some? {
        var temp := Others(manifest.value, target);
        manifest := if temp != [] then Some(temp) else None;
      }
    }

    // The source's content never decides.
    method PreflightManagedTarget(source: string, target: string) returns (ok: bool)
      ensures ok <==> Free(Value(), target)
    {
      if target !in files {
        return true;
      }
      if !files[target].File? {
        return false;
      }
      var current := Digest(files[target].content);
      var previous := ManifestHash(target);
      if current == Digest(source) {
        return previous.Some? && previous.value == current;
      }
      ok := previous.Some? && current == previous.value;
    }

    // Any step of the disk may fail and leave the target in any state.
    method Scramble(target: string)
      modifies this
      ensures OnlyTouched(old(Value()), Value(), {target})
    {
      var left: Option<Node> := *;
      files := if left.Some? then files[target := left.value] else files - {target};
      manifest := *;
    }

    method InstallManagedFile(item: Item) returns (ending: Ending)
      requires item.target in files ==> files[item.target].File?
      modifies this
      ensures ending.Done? ==> Value() == Put(old(Value()), item)
      ensures ending.Refused? ==> Value() == old(Value()) && !Free(Value(), item.target)
      ensures OnlyTouched(old(Value()), Value(), {item.target})
    {
      if item.target in files && files[item.target].content == item.content {
        var recorded := ManifestHash(item.target);
        if recorded != Some(Digest(item.content)) {
          return Refused;
        }
      }
      if * {
        Scramble(item.target);
        return Broken;
      }
      files := files[item.target := File(item.content, item.mode)];
      WriteManifestEntry(item.target, Digest(item.content));
      ending := Done;
    }

    method SeedUserFile(item: Item) returns (ending: Ending)
      modifies this
      ensures ending.Done? ==> Value() == Seeded(old(Value()), item)
      ensures ending.Refused? <==> item.target in old(files) && old(files)[item.target].Directory?
      ensures item.target in old(files) ==> Value() == old(Value())
      ensures OnlyTouched(old(Value()), Value(), {item.target})
    {
      if item.target in files {
        return if files[item.target].Directory? then Refused else Done;
      }
      if * {
        Scramble(item.target);
        return Broken;
      }
      files := files[item.target := File(item.content, item.mode)];
      WriteManifestEntry(item.target, Digest(item.content));
      ending := Done;
    }

    // Cannot refuse: every target was preflighted before the first was written.
    method InstallAll(items: seq<Item>) returns (ending: Ending)
      requires Sound(manifest) && forall i :: i in items ==> Free(Value(), i.target)
      modifies this
      ensures !ending.Refused?
      ensures ending.Done? ==> Value() == PutAll(old(Value()), items)
      ensures OnlyTouched(old(Value()), Value(), Targets(items))
      ensures ending.Done? ==> Sound(manifest)
      ensures ending.Done? ==> forall p :: Free(old(Value()), p) ==> Free(Value(), p)
    {
      for n := 0 to |items|
        invariant Value() == PutAll(old(Value()), items[..n]) && Sound(manifest)
        invariant forall p :: Free(old(Value()), p) ==> Free(Value(), p)
        invariant OnlyTouched(old(Value()), Value(), Targets(items))
      {
        assert items[..n + 1][..n] == items[..n] && items[n] in items;
        ghost var before := Value();
        forall p | Free(before, p) ensures Sound(Put(before, items[n]).manifest) && Free(Put(before, items[n]), p) {
          FreeAfterPut(before, items[n], p);
        }
        FreeAfterPut(before, items[n], items[n].target);
        ending := InstallManagedFile(items[n]);
        if !ending.Done? {
          return;
        }
      }
      assert items[..|items|] == items;
      ending := Done;
    }

    method SnapshotArtifacts(targets: seq<string>) returns (saved: Snapshot)
      ensures SavedFrom(files, saved) && |saved| == |targets|
      ensures forall i :: 0 <= i < |targets| ==> saved[i].0 == targets[i]
    {
      saved := [];
      for i := 0 to |targets|
        invariant SavedFrom(files, saved) && |saved| == i
        invariant forall k :: 0 <= k < i ==> saved[k].0 == targets[k]
      {
        var target := targets[i];
        saved := saved + [(target, if target in files && files[target].File? then Some(files[target]) else None)];
      }
    }

    method InsertRequire()
      modifies `entry, `marker
      ensures Value() == Required(old(Value()))
    {
      if entry.Lua? && Census(entry).modules == 0 {
        var output := InsertBelowInputs(entry.lines);
        entry := Lua(output, true, entry.mode);
        marker := true;
      }
    }

    // The seeds of an install that is not for production.
    method Seed(config: Item, commissioning: Item) returns (ending: Ending)
      modifies this
      ensures ending.Done? ==> Value() == Seeded(Seeded(old(Value()), config), commissioning)
      ensures ending.Refused? ==> SeedBlocked(old(Value()), config) || SeedBlocked(old(Value()), commissioning)
      ensures SeedBlocked(old(Value()), config) ==> ending.Refused? && Value() == old(Value())
      ensures config.target != commissioning.target && SeedBlocked(old(Value()), commissioning) ==> !ending.Done?
      ensures !SeedBlocked(old(Value()), config) && ending.Refused? ==> Value() == Seeded(old(Value()), config)
      ensures OnlyTouched(old(Value()), Value(), {config.target, commissioning.target} - old(files).Keys)
    {
      ending := SeedUserFile(config);
      if ending.Done? {
        ending := SeedUserFile(commissioning);
      }
    }

    method StageModule(item: Item, activate: bool) returns (ending: Ending, backup: Option<HyprBackup>)
      requires Free(Value(), item.target)
      modifies this
      ensures !ending.Refused?
      ensures ending.Done? ==>
        var staged := Put(old(Value()), item); Value() == if activate then Required(staged) else staged
      ensures backup == if activate then Some(HyprBackupOf(old(Value()), item.target)) else None
      ensures forall p :: p != item.target ==> Lookup(files, p) == Lookup(old(files), p)
      ensures !activate ==> entry == old(entry) && marker == old(marker)
    {
      backup := None;
      if activate {
        var content, hash := None, None;
        if item.target in files && files[item.target].File? {
          content := Some(files[item.target].content);
          hash := ManifestHash(item.target);
        }
        backup := Some(HyprBackup(entry, content, hash, marker));
      }
      ending := InstallManagedFile(item);
      if ending.Done? && activate {
        if * {
          entry, marker := *, *;
          return Broken, backup;
        }
        InsertRequire();
      }
    }

    // Everything an install changes.
    method Change(plan: Plan, activate: bool) returns (ending: Ending, backup: Option<HyprBackup>)
      requires WellFormed(Value(), plan) && Acceptable(Value(), plan, activate)
      modifies this
      ensures backup.Some? ==> plan.hypr.Some?
      ensures ending.Done? ==> Value() == Installed(old(Value()), plan, activate)
      ensures !ending.Broken? ==> (ending.Refused? <==> Stopped(old(Value()), plan))
      ensures ending.Refused? ==> Value() == Partial(old(Value()), plan)
      ensures activate ==>
        Disturbed(old(Value()), Value(), plan, SavedTargets(old(Value()), plan), backup)
      ensures !activate ==> OnlyTouched(old(Value()), Value(), AllTargets(plan))
    {
      backup := None;
      var items := ManagedItems(plan);
      TargetsAreListed(items);
      ending := InstallAll(items);
      if !ending.Done? {
        return;
      }
      if plan.hypr.Some? {
        ending, backup := StageModule(plan.hypr.value, activate);
      } else {
        assert items == plan.managed;
        SeedsAreUnmanaged(old(Value()), plan);
        ending := Seed(plan.config, plan.commissioning);
      }
    }

    method Rollback(saved: Snapshot, ledger: Ledger, backup: Option<HyprBackup>, plan: Plan)
      requires backup.Some? ==> plan.hypr.Some?
      modifies this
      ensures Value() == RolledBack(old(Value()), saved, ledger, backup, plan)
    {
      assert saved[0..] == saved;
      for i := 0 to |saved|
        invariant RestoredFiles(files, saved[i..]) == RestoredFiles(old(files), saved)
        invariant entry == old(entry) && marker == old(marker)
      {
        assert saved[i..][1..] == saved[i + 1..];
        var (target, node) := saved[i];
        files := if node.Some? then files[target := node.value] else files - {target};
      }
      assert saved[|saved|..] == [];
      if backup.Some? {
        var target := plan.hypr.value.target;
        entry := backup.value.entry;
        if backup.value.hypr.Some? {
          files := files[target := File(backup.value.hypr.value, MODULE_MODE)];
          if backup.value.hash.Some? {
            WriteManifestEntry(target, backup.value.hash.value);
          } else {
            RemoveManifestEntry(target);
          }
        } else {
          files := files - {target};
          RemoveManifestEntry(target);
        }
        marker := backup.value.marker;
      }
      manifest := ledger;
    }

    // `tools` and `verified` are the checks of other programs before and after
    // the changes. An activation that does not commit is rolled back; what is
    // obsolete goes after the commit.
    method Commission(plan: Plan, activate: bool, tools: bool, verified: bool)
        returns (ending: Ending, committed: bool, ghost swept: nat)
      requires WellFormed(Value(), plan)
      modifies this
      ensures !Acceptable(old(Value()), plan, activate) || !tools ==> ending.Refused? && Value() == old(Value())
      ensures ending.Done? ==> committed && Value() == Retired(Installed(old(Value()), plan, activate), plan)
      ensures committed && !ending.Done? ==>
        ending.Broken? && SweptPartly(Installed(old(Value()), plan, activate), RetireScope(plan), swept, Value())
      ensures activate && !committed ==> Value() in {old(Value()), ModuleRemoded(old(Value()), plan)}
      ensures activate && !verified ==> !committed
      ensures !activate && !committed ==>
        OnlyTouched(old(Value()), Value(), AllTargets(plan)) || Value() == old(Value())
      ensures !activate && tools && Acceptable(old(Value()), plan, activate) ==>
        && (!ending.Broken? ==> (ending.Refused? <==> Stopped(old(Value()), plan)))
        && (ending.Refused? ==> Value() == Partial(old(Value()), plan))
    {
      swept := 0;
      ending := Transact(plan, activate, tools, verified);
      committed := ending.Done?;
      if committed && plan.shell {
        ending, swept := Sweep(RetireScope(plan));
      }
    }

    method Transact(plan: Plan, activate: bool, tools: bool, verified: bool) returns (ending: Ending)
      requires WellFormed(Value(), plan)
      modifies this
      ensures !Acceptable(old(Value()), plan, activate) || !tools ==> ending.Refused? && Value() == old(Value())
      ensures ending.Done? ==> Value() == Installed(old(Value()), plan, activate)
      ensures activate && !ending.Done? ==> Value() in {old(Value()), ModuleRemoded(old(Value()), plan)}
      ensures activate && !verified ==> !ending.Done?
      ensures !activate ==> OnlyTouched(old(Value()), Value(), AllTargets(plan)) || Value() == old(Value())
      ensures !activate && tools && Acceptable(old(Value()), plan, activate) ==>
        && (!ending.Broken? ==> (ending.Refused? <==> Stopped(old(Value()), plan)))
        && (ending.Refused? ==> Value() == Partial(old(Value()), plan))
    {
      var items := ManagedItems(plan);
      for i := 0 to |items|
        invariant Value() == old(Value())
        invariant forall k :: 0 <= k < i ==> Free(Value(), items[k].target)
      {
        var ok := PreflightManagedTarget(items[i].content, items[i].target);
        if !ok {
          assert items[i] in items;
          return Refused;
        }
      }
      if plan.hypr.Some? {
        var ok := PreflightManagedTarget(plan.hypr.value.content, plan.hypr.value.target);
        if !ok || !EntryAccepts(entry, activate) {
          return Refused;
        }
      }
      if !tools {
        return Refused;
      }
      var ledger, saved := manifest, [];
      if activate {
        saved := SnapshotArtifacts(SavedTargets(Value(), plan));
      }
      var backup;
      ending, backup := Change(plan, activate);
      if activate {
        if ending.Done? && !verified {
          ending := Refused;
        }
        if !ending.Done? {
          SavedAreFree(old(Value()), plan, activate, saved);
          RollbackPutsBack(old(Value()), Value(), plan, saved, backup);
          Rollback(saved, ledger, backup, plan);
        }
      }
    }

    method RemoveRequire()
      modifies `entry, `marker
      ensures Value() == Unrequired(old(Value()))
    {
      if marker && entry.Lua? && OwnedOnce(Census(entry)) {
        var output := DropBelowInputs(entry.lines);
        entry := Lua(output, true, entry.mode);
      }
      marker := false;
    }

    method SweepOne(r: Record, scope: Scope) returns (ending: Ending)
      modifies `files, `manifest
      ensures !ending.Refused?
      ensures ending.Done? ==> Value() == SweptOne(old(Value()), r, scope)
      ensures ending.Broken? ==>
        Value() in {old(Value()), SweptOne(old(Value()), r, scope).(manifest := old(manifest))}
    {
      if InScope(scope, r.target) {
        if r.target in files {
          if !files[r.target].File? || Digest(files[r.target].content) != r.digest {
            return Done;
          }
          if * {
            return Broken;
          }
          files := files - {r.target};
        }
        if * {
          return Broken;
        }
        RemoveManifestEntry(r.target);
      }
      ending := Done;
    }

    // Any removal may fail, which stops the loop.
    method Sweep(scope: Scope) returns (ending: Ending, ghost swept: nat)
      modifies `files, `manifest
      ensures !ending.Refused?
      ensures ending.Done? ==> Value() == Swept(old(Value()), Records(old(manifest)), scope)
      ensures ending.Broken? ==> SweptPartly(old(Value()), scope, swept, Value())
    {
      swept := 0;
      if manifest.Some? {
        var records := manifest.value;
        for i := 0 to |records|
          invariant Value() == Swept(old(Value()), records[..i], scope)
        {
          swept := i;
          SweptNext(old(Value()), records, i, scope);
          ending := SweepOne(records[i], scope);
          if ending.Broken? {
            return;
          }
        }
        assert records[..|records|] == records;
      }
      ending := Done;
    }

    // `stopped`: the service manager stopped the owned units, if there are any.
    method Uninstall(units: seq<string>, stopped: bool) returns (ending: Ending, ghost swept: nat)
      modifies this
      ensures ending.Refused? <==> Refuses(old(Value()), units) || !stopped
      ensures ending.Refused? ==> Value() == old(Value())
      ensures ending.Done? ==> Value() == Uninstalled(old(Value()))
      ensures ending.Broken? ==>
        || (files == old(files) && manifest == old(manifest))
        || SweptPartly(Unrequired(old(Value())), Everything, swept, Value())
    {
      swept := 0;
      for i := 0 to |units|
        invariant Value() == old(Value())
        invariant forall k :: 0 <= k < i ==> !ModifiedUnit(Value(), units[k])
      {
        var installed := ManifestHash(units[i]);
        if installed.Some? && units[i] in files {
          var unit := files[units[i]];
          if !unit.File? || Digest(unit.content) != installed.value {
            assert units[i] in units && ModifiedUnit(Value(), units[i]);
            return Refused, 0;
          }
        }
      }
      var c := Census(entry);
      if c.mentions > 0 && (entry.LinkedLua? || !marker || !OwnedOnce(c) || c.mentions != 1) {
        return Refused, 0;
      }
      if !stopped {
        return Refused, 0;
      }
      if * {
        entry := *;
        return Broken, 0;
      }
      RemoveRequire();
      ending, swept := Sweep(Everything);
    }
  }

  // ---- What a sweep removes and keeps ----

  lemma {:induction false} KeptContents(files: Files, records: seq<Record>, scope: Scope)
    ensures forall r :: r in Kept(files, records, scope) <==> r in records && Stays(files, scope, r)
    ensures DistinctTargets(records) ==> DistinctTargets(Kept(files, records, scope))
  {
    if records != [] {
      KeptContents(files, records[1..], scope);
      assert forall r :: r in records <==> r == records[0] || r in records[1..];
      var rest := Kept(files, records[1..], scope);
      if DistinctTargets(records) {
        assert forall r :: r in rest ==> r.target != records[0].target;
      }
    }
  }

  lemma {:induction false} OthersSplit(a: seq<Record>, b: seq<Record>, target: string)
    ensures Others(a + b, target) == Others(a, target) + Others(b, target)
  {
    if a == [] {
      assert a + b == b;
    } else {
      assert (a + b)[1..] == a[1..] + b;
      OthersSplit(a[1..], b, target);
    }
  }

  // Dropping the record in the middle of a sound list.
  lemma WithoutOne(kept: seq<Record>, r: Record, rest: seq<Record>)
    requires DistinctTargets(kept + [r] + rest)
    ensures Others(kept + [r] + rest, r.target) == kept + rest && DistinctTargets(kept + rest)
  {
    FollowingRecordsDiffer(kept, r, rest);
    PrecedingRecordsDiffer(kept, r, rest);
    OthersOfMiddle(kept, r, rest);
    OthersContents(kept + [r] + rest, r.target);
  }

  lemma OthersOfMiddle(kept: seq<Record>, r: Record, rest: seq<Record>)
    requires r.target !in TargetsOf(kept) && r.target !in TargetsOf(rest)
    ensures Others(kept + [r] + rest, r.target) == kept + rest
  {
    OthersSplit(kept + [r], rest, r.target);
    NoOthers(rest, r.target);
    OthersOfLast(kept, r);
  }

  lemma OthersOfLast(kept: seq<Record>, r: Record)
    requires r.target !in TargetsOf(kept)
    ensures Others(kept + [r], r.target) == kept
  {
    OthersSplit(kept, [r], r.target);
    NoOthers(kept, r.target);
    assert Others([r], r.target) == [];
  }

  lemma PrecedingRecordsDiffer(kept: seq<Record>, r: Record, rest: seq<Record>)
    requires DistinctTargets(kept + [r] + rest)
    ensures forall x :: x in kept ==> x.target != r.target
  {
    var all := kept + [r] + rest;
    forall x | x in kept ensures x.target != r.target {
      var i :| 0 <= i < |kept| && kept[i] == x;
      assert all[i] == x && all[|kept|] == r;
    }
  }

  // A sweep keeps exactly the records it does not cover and those of files
  // that are there but modified, in their order.
  lemma {:induction false} SweptRecords(
      h: Home, kept: seq<Record>, records: seq<Record>, tail: seq<Record>, scope: Scope)
    requires Sound(h.manifest) && Records(h.manifest) == kept + (records + tail)
    ensures var after := Swept(h, records, scope);
      && after.entry == h.entry && after.marker == h.marker
      && Sound(after.manifest) && Records(after.manifest) == kept + (Kept(h.files, records, scope) + tail)
    decreases |records|
  {
    if records == [] {
      assert records + tail == tail;
      assert [] + tail == tail;
    } else {
      var r, rest := records[0], records[1..];
      var next := if Stays(h.files, scope, r) then kept + [r] else kept;
      Regroup(kept, r, rest, tail);
      Regroup(kept, r, Kept(h.files, rest, scope), tail);
      assert records == [r] + rest;
      SweptOneRecord(h, kept, r, rest, tail, scope);
      SweptRecords(SweptOne(h, r, scope), next, rest, tail, scope);
      KeptFirst(h.files, records, scope);
    }
  }

  lemma Regroup(kept: seq<Record>, r: Record, rest: seq<Record>, tail: seq<Record>)
    ensures ([r] + rest) + tail == [r] + (rest + tail)
    ensures (kept + [r]) + (rest + tail) == kept + (([r] + rest) + tail)
  {
  }

  lemma KeptFirst(files: Files, records: seq<Record>, scope: Scope)
    requires records != []
    ensures Kept(files, records, scope)
      == if Stays(files, scope, records[0]) then [records[0]] + Kept(files, records[1..], scope)
         else Kept(files, records[1..], scope)
  {
  }

  lemma SweptOneRecord(h: Home, kept: seq<Record>, r: Record, rest: seq<Record>, tail: seq<Record>, scope: Scope)
    requires Sound(h.manifest) && Records(h.manifest) == kept + ([r] + (rest + tail))
    ensures var next := SweptOne(h, r, scope);
      && next.entry == h.entry && next.marker == h.marker && Sound(next.manifest)
      && Records(next.manifest) == (if Stays(h.files, scope, r) then kept + [r] else kept) + (rest + tail)
      && Kept(next.files, rest, scope) == Kept(h.files, rest, scope)
  {
    assert kept + ([r] + (rest + tail)) == kept + [r] + (rest + tail);
    FollowingRecordsDiffer(kept, r, rest + tail);
    WithoutOne(kept, r, rest + tail);
    forall x | x in rest ensures x.target != r.target {
      assert x in rest + tail;
    }
    SameKept(SweptOne(h, r, scope).files, h.files, rest, scope);
  }

  // The whole manifest at once.
  lemma SweptAll(h: Home, scope: Scope)
    requires Sound(h.manifest)
    ensures var after := Swept(h, Records(h.manifest), scope);
      && after.entry == h.entry && after.marker == h.marker
      && Sound(after.manifest) && Records(after.manifest) == Kept(h.files, Records(h.manifest), scope)
  {
    var records := Records(h.manifest);
    assert [] + (records + []) == records;
    SweptRecords(h, [], records, [], scope);
    assert [] + (Kept(h.files, records, scope) + []) == Kept(h.files, records, scope);
  }

  // A sweep removes exactly the untouched files in its scope.
  lemma {:induction false} SweptFiles(h: Home, records: seq<Record>, scope: Scope, p: string)
    requires DistinctTargets(records)
    ensures Lookup(Swept(h, records, scope).files, p)
      == if InScope(scope, p) && RemovesUntouched(h.files, records, p) then None else Lookup(h.files, p)
    decreases |records|
  {
    if records != [] {
      var r, rest := records[0], records[1..];
      assert [] + [r] + rest == records;
      FollowingRecordsDiffer([], r, rest);
      SweptOneFile(h, r, rest, scope, p);
      SweptFiles(SweptOne(h, r, scope), rest, scope, p);
    }
  }

  lemma SweptOneFile(h: Home, r: Record, rest: seq<Record>, scope: Scope, p: string)
    requires forall x :: x in rest ==> x.target != r.target
    ensures var next, goes := SweptOne(h, r, scope).files, r.target == p && Untouched(h.files, r);
      && Lookup(next, p) == (if goes && InScope(scope, p) then None else Lookup(h.files, p))
      && (InScope(scope, p) ==>
            (RemovesUntouched(h.files, [r] + rest, p) <==> goes || RemovesUntouched(next, rest, p)))
  {
    assert forall x :: x in [r] + rest <==> x == r || x in rest;
  }

  predicate RemovesUntouched(files: Files, records: seq<Record>, p: string) {
    exists r :: r in records && r.target == p && Untouched(files, r)
  }

  lemma FollowingRecordsDiffer(kept: seq<Record>, r: Record, rest: seq<Record>)
    requires DistinctTargets(kept + [r] + rest)
    ensures forall x :: x in rest ==> x.target != r.target
  {
    var all := kept + [r] + rest;
    forall x | x in rest ensures x.target != r.target {
      var i :| 0 <= i < |rest| && rest[i] == x;
      assert all[|kept|] == r && all[|kept| + 1 + i] == x;
    }
  }

  lemma {:induction false} SameKept(a: Files, b: Files, records: seq<Record>, scope: Scope)
    requires forall r :: r in records ==> Lookup(a, r.target) == Lookup(b, r.target)
    ensures Kept(a, records, scope) == Kept(b, records, scope)
  {
    if records != [] {
      assert records[0] in records;
      SameKept(a, b, records[1..], scope);
    }
  }

  // ---- Uninstalling after any edits ----

  predicate HasRecordedContent(h: Home, p: string) {
    p in h.files && h.files[p].File? && Recorded(h.manifest, p) == Some(Digest(h.files[p].content))
  }

  // Whatever the user did to the files, an uninstall that is not refused
  // removes exactly the files that still have their recorded content, and
  // keeps exactly the records of those that are there with another.
  lemma UninstallKeepsUserFiles(h: Home, p: string)
    requires Sound(h.manifest) && p != ""
    ensures var after := Uninstalled(h);
      && Lookup(after.files, p) == (if HasRecordedContent(h, p) then None else Lookup(h.files, p))
      && Recorded(after.manifest, p)
        == (if p in h.files && !HasRecordedContent(h, p) then Recorded(h.manifest, p) else None)
      && Sound(after.manifest) && !after.marker
  {
    var start, records := Unrequired(h), Records(h.manifest);
    SweptAll(start, Everything);
    SweptFiles(start, records, Everything, p);
    RecordedIsUntouched(h, p);
    KeptRecords(h.files, records, Everything, p);
  }

  lemma RecordedIsUntouched(h: Home, p: string)
    requires Sound(h.manifest)
    ensures RemovesUntouched(h.files, Records(h.manifest), p) <==> HasRecordedContent(h, p)
  {
    RecordedMeaning(Records(h.manifest), p);
    if HasRecordedContent(h, p) {
      assert Untouched(h.files, Record(p, Digest(h.files[p].content)));
    }
  }

  lemma KeptRecords(files: Files, records: seq<Record>, scope: Scope, p: string)
    requires DistinctTargets(records)
    ensures var d, kept := RecordedIn(records, p), RecordedIn(Kept(files, records, scope), p);
      kept == if d.Some? && Stays(files, scope, Record(p, d.value)) then d else None
  {
    KeptContents(files, records, scope);
    RecordedMeaning(records, p);
    RecordedMeaning(Kept(files, records, scope), p);
  }

  // An uninstall that breaks off has removed nothing but files with their
  // recorded content.
  lemma BrokenUninstallKeepsUserFiles(h: Home, n: nat, after: Home, p: string)
    requires Sound(h.manifest) && SweptPartly(h, Everything, n, after)
    ensures Lookup(after.files, p) == Lookup(h.files, p) || (p !in after.files && HasRecordedContent(h, p))
  {
    var records := Records(h.manifest);
    var part, r := Swept(h, records[..n], Everything), records[n];
    SweptFiles(h, records[..n], Everything, p);
    assert SweptOne(part, r, Everything) == Swept(part, [r], Everything);
    SweptNext(h, records, n, Everything);
    SweptFiles(h, records[..n + 1], Everything, p);
    RecordedIsUntouched(h, p);
    if RemovesUntouched(h.files, records[..n], p) || RemovesUntouched(h.files, records[..n + 1], p) {
      var x :| x in records && x.target == p && Untouched(h.files, x);
    }
  }

  lemma {:induction false} StayingIsSwept(h: Home, records: seq<Record>, scope: Scope)
    requires forall r :: r in records ==> Stays(h.files, scope, r)
    ensures Swept(h, records, scope) == h
    decreases |records|
  {
    if records != [] {
      assert records[0] in records;
      assert SweptOne(h, records[0], scope) == h;
      StayingIsSwept(h, records[1..], scope);
    }
  }

  // What has been kept so far stays through a second sweep.
  lemma KeptStays(h: Home, n: nat, scope: Scope, after: Home)
    requires Sound(h.manifest) && n <= |Records(h.manifest)|
    requires var part := Swept(h, Records(h.manifest)[..n], scope);
      forall r :: r in Records(h.manifest)[..n] ==> Lookup(after.files, r.target) == Lookup(part.files, r.target)
    ensures Swept(after, Kept(h.files, Records(h.manifest)[..n], scope), scope) == after
  {
    var prefix := Records(h.manifest)[..n];
    KeptContents(h.files, prefix, scope);
    forall r | r in Kept(h.files, prefix, scope) ensures Stays(after.files, scope, r) {
      SweptFiles(h, prefix, scope, r.target);
      if InScope(scope, r.target) {
        OnlyRecordOf(prefix, r, h.files);
        assert Lookup(after.files, r.target) == Lookup(h.files, r.target);
      }
    }
    StayingIsSwept(after, Kept(h.files, prefix, scope), scope);
  }

  lemma OnlyRecordOf(records: seq<Record>, r: Record, files: Files)
    requires DistinctTargets(records) && r in records
    ensures RemovesUntouched(files, records, r.target) <==> Untouched(files, r)
  {
  }

  // The records while the sweep is at record n.
  lemma RecordsPartway(h: Home, n: nat)
    requires Sound(h.manifest) && n < |Records(h.manifest)|
    ensures var records := Records(h.manifest);
      Records(Swept(h, records[..n], Everything).manifest)
      == Kept(h.files, records[..n], Everything) + ([records[n]] + records[n + 1..])
  {
    var records := Records(h.manifest);
    var prefix, tail := records[..n], [records[n]] + records[n + 1..];
    assert records == [] + (prefix + tail);
    SweptRecords(h, [], prefix, tail, Everything);
    assert [] + (Kept(h.files, prefix, Everything) + tail) == Kept(h.files, prefix, Everything) + tail;
  }

  // Running the uninstall again after a break ends where an unbroken one does.
  lemma RetryCompletes(h: Home, n: nat, after: Home)
    requires Sound(h.manifest) && SweptPartly(h, Everything, n, after)
    ensures Swept(after, Records(after.manifest), Everything) == Swept(h, Records(h.manifest), Everything)
  {
    var records := Records(h.manifest);
    var prefix, r, rest := records[..n], records[n], records[n + 1..];
    var part, kept := Swept(h, prefix, Everything), Kept(h.files, prefix, Everything);
    RecordsPartway(h, n);
    LaterRecordDiffers(records, n);
    KeptStays(h, n, Everything, after);
    SweptInTwoParts(after, kept, [r] + rest, Everything);
    SweptInTwoParts(h, prefix, [r] + rest, Everything);
    assert records == prefix + ([r] + rest);
    NextIsSweptAlike(part, r, after, rest);
  }

  lemma NextIsSweptAlike(part: Home, r: Record, after: Home, rest: seq<Record>)
    requires after == part || after == SweptOne(part, r, Everything).(manifest := part.manifest)
    ensures Swept(after, [r] + rest, Everything) == Swept(part, [r] + rest, Everything)
  {
    assert SweptOne(after, r, Everything) == SweptOne(part, r, Everything);
    assert ([r] + rest)[1..] == rest;
  }

  lemma LaterRecordDiffers(records: seq<Record>, n: nat)
    requires DistinctTargets(records) && n < |records|
    ensures forall r :: r in records[..n] ==> r.target != records[n].target
  {
  }

  // And no Hyprland entry point mentions the module afterwards.
  lemma NoReferenceIsLeft(h: Home, units: seq<string>)
    requires Sound(h.manifest) && !Refuses(h, units)
    ensures Census(Uninstalled(h).entry).mentions == 0
  {
    UninstalledEntry(h);
    DroppedCounts(false, LinesOf(h.entry));
  }

  // What the user made of an installed file decides what becomes of it.
  lemma EditsSurvive(h: Home, items: seq<Item>, edited: Home, p: string)
    requires Sound(h.manifest) && p != "" && edited.manifest == PutAll(h, items).manifest
    requires ItemFor(items, p).Some?
    ensures var after, content := Uninstalled(edited), ItemFor(items, p).value.content;
      var untouched := p in edited.files && edited.files[p].File? && edited.files[p].content == content;
      && Lookup(after.files, p) == (if untouched then None else Lookup(edited.files, p))
      && Recorded(after.manifest, p) == (if p in edited.files && !untouched then Some(Digest(content)) else None)
  {
    PutAllMeaning(h, items, p);
    UninstallKeepsUserFiles(edited, p);
  }

  // ---- There and back ----

  predicate Inserts(h: Home, plan: Plan, activate: bool) {
    plan.hypr.Some? && activate && h.entry.Lua? && Census(h.entry).modules == 0
  }

  // Every item an install writes on such a home.
  function WrittenItems(h: Home, plan: Plan): seq<Item> {
    if plan.hypr.Some? then ManagedItems(plan) + [plan.hypr.value]
    else plan.managed + Unseeded(h, plan.config) + Unseeded(h, plan.commissioning)
  }

  function Unseeded(h: Home, item: Item): seq<Item> {
    if item.target in h.files then [] else [item]
  }

  lemma PutOneMore(h: Home, items: seq<Item>, item: Item)
    ensures PutAll(h, items + [item]) == Put(PutAll(h, items), item)
    ensures PutAll(h, items + []) == PutAll(h, items)
  {
    assert (items + [item])[..|items|] == items && items + [] == items;
  }

  lemma SeededAfterPut(h: Home, items: seq<Item>, item: Item)
    requires Sound(h.manifest) && item.target !in Targets(items)
    ensures Seeded(PutAll(h, items), item) == PutAll(h, items + Unseeded(h, item))
  {
    PutAllMeaning(h, items, item.target);
    ItemForMeaning(items, item.target);
    PutOneMore(h, items, item);
  }

  lemma InstalledIsPutAll(h: Home, plan: Plan, activate: bool)
    requires WellFormed(h, plan)
    ensures var put := PutAll(h, WrittenItems(h, plan));
      Installed(h, plan, activate)
      == if Inserts(h, plan, activate)
         then put.(entry := Lua(Inserted(h.entry.lines), true, h.entry.mode), marker := true)
         else put
  {
    PutAllMeaning(h, WrittenItems(h, plan), "");
    if plan.hypr.Some? {
      PutOneMore(h, ManagedItems(plan), plan.hypr.value);
    } else {
      SeedsArePut(h, plan);
    }
  }

  lemma SeedsArePut(h: Home, plan: Plan)
    requires WellFormed(h, plan) && plan.hypr.None?
    ensures Seeded(Seeded(PutAll(h, ManagedItems(plan)), plan.config), plan.commissioning)
      == PutAll(h, WrittenItems(h, plan))
  {
    assert ManagedItems(plan) == plan.managed;
    SeededAfterPut(h, plan.managed, plan.config);
    SeededAfterPut(h, plan.managed + Unseeded(h, plan.config), plan.commissioning);
  }

  // On a home without an earlier install, every target written was absent.
  lemma WrittenWereAbsent(h: Home, plan: Plan, activate: bool)
    requires WellFormed(h, plan) && h.manifest.None? && Acceptable(h, plan, activate)
    ensures forall i :: i in WrittenItems(h, plan) ==> i.target !in h.files && i.target in AllTargets(plan)
  {
    forall i | i in WrittenItems(h, plan) ensures i.target !in h.files && i.target in AllTargets(plan) {
      assert i in ManagedItems(plan) ==> Free(h, i.target);
    }
  }

  lemma UninstallEmpties(h: Home, plan: Plan, activate: bool)
    requires WellFormed(h, plan) && h.manifest.None? && Acceptable(h, plan, activate) && "" !in AllTargets(plan)
    ensures var installed := Installed(h, plan, activate);
      && Uninstalled(installed).files == h.files && Uninstalled(installed).manifest == None
      && forall u :: !ModifiedUnit(installed, u)
  {
    var items, installed := WrittenItems(h, plan), Installed(h, plan, activate);
    InstalledIsPutAll(h, plan, activate);
    WrittenWereAbsent(h, plan, activate);
    forall p
      ensures Lookup(Uninstalled(installed).files, p) == Lookup(h.files, p)
      ensures !ModifiedUnit(installed, p)
      ensures p != "" ==> Recorded(Uninstalled(installed).manifest, p) == None
      ensures p in TargetsOf(Records(installed.manifest)) ==> p != ""
      ensures Sound(installed.manifest)
    {
      UninstallUndoes(h, items, installed, p);
    }
    SameFiles(Uninstalled(installed).files, h.files);
    assert Lookup(installed.files, "") == Lookup(installed.files, "");
    PutAllMeaning(h, items, "");
    NothingRecorded(installed);
  }

  lemma UninstallUndoes(h: Home, items: seq<Item>, installed: Home, p: string)
    requires h.manifest.None? && "" !in Targets(items)
    requires forall i :: i in items ==> i.target !in h.files
    requires installed.files == PutAll(h, items).files && installed.manifest == PutAll(h, items).manifest
    ensures Lookup(Uninstalled(installed).files, p) == Lookup(h.files, p)
    ensures !ModifiedUnit(installed, p)
    ensures p != "" ==> Recorded(Uninstalled(installed).manifest, p) == None
    ensures p in TargetsOf(Records(installed.manifest)) ==> p != ""
    ensures Sound(installed.manifest)
  {
    PutAllMeaning(h, items, p);
    ItemForMeaning(items, p);
    RecordedMeaning(Records(installed.manifest), p);
    if p != "" {
      UninstallKeepsUserFiles(installed, p);
    } else {
      SweptFiles(Unrequired(installed), Records(installed.manifest), Everything, p);
    }
  }

  lemma NothingRecorded(h: Home)
    requires Sound(h.manifest)
    requires forall p :: p in TargetsOf(Records(h.manifest)) ==> p != ""
    requires forall p :: p != "" ==> Recorded(Uninstalled(h).manifest, p) == None
    ensures Uninstalled(h).manifest == None
  {
    var records, after := Records(h.manifest), Uninstalled(h).manifest;
    SweptAll(Unrequired(h), Everything);
    KeptContents(h.files, records, Everything);
    assert Records(after) == Kept(h.files, records, Everything);
    assert TargetsOf(Records(after)) <= TargetsOf(records);
    EmptyIfUnrecorded(after);
  }

  lemma EmptyIfUnrecorded(manifest: Ledger)
    requires Sound(manifest)
    requires forall p :: p in TargetsOf(Records(manifest)) ==> Recorded(manifest, p) == None
    ensures manifest == None
  {
    if Records(manifest) != [] {
      var r := Records(manifest)[0];
      assert r.target in TargetsOf(Records(manifest));
      RecordedMeaning(Records(manifest), r.target);
    }
  }

  // The Hyprland side alone.
  lemma RequireRoundTrip(h: Home, plan: Plan, activate: bool, installed: Home)
    requires !h.marker && Acceptable(h, plan, activate)
    requires installed.entry == (if Inserts(h, plan, activate) then Required(h).entry else h.entry)
    requires installed.marker == Inserts(h, plan, activate)
    ensures EntryRetains(installed.entry, installed.marker) <==> Census(h.entry).mentions > 0
    ensures Unrequired(installed).entry
      == (if Inserts(h, plan, activate) then h.entry.(newline := true) else h.entry)
    ensures !Unrequired(installed).marker
  {
    RemoveUndoesInsert(LinesOf(h.entry));
    InsertedCounts(LinesOf(h.entry));
  }

  // On such a home nothing recorded is obsolete.
  lemma RetiresNothing(h: Home, plan: Plan, activate: bool)
    requires WellFormed(h, plan) && h.manifest.None? && Acceptable(h, plan, activate)
    ensures Retired(Installed(h, plan, activate), plan) == Installed(h, plan, activate)
  {
    var items, installed := WrittenItems(h, plan), Installed(h, plan, activate);
    InstalledIsPutAll(h, plan, activate);
    WrittenWereAbsent(h, plan, activate);
    forall r | r in Records(installed.manifest) ensures !InScope(RetireScope(plan), r.target) {
      PutAllMeaning(h, items, r.target);
      ItemForMeaning(items, r.target);
      RecordedMeaning(Records(installed.manifest), r.target);
      assert r.target in TargetsOf(Records(installed.manifest));
    }
    StayingIsSwept(installed, Records(installed.manifest), RetireScope(plan));
  }

  // On a home without an earlier install, installing and uninstalling is the
  // identity, up to a final newline in hyprland.lua; and the uninstall is
  // refused exactly when that file mentioned the module all along.
  lemma InstallThenUninstall(h: Home, plan: Plan, activate: bool, units: seq<string>)
    requires WellFormed(h, plan) && h.manifest.None? && !h.marker && Acceptable(h, plan, activate)
    requires "" !in AllTargets(plan)
    ensures var installed := Retired(Installed(h, plan, activate), plan);
      && (Refuses(installed, units) <==> Census(h.entry).mentions > 0)
      && (!Refuses(installed, units) ==>
            Uninstalled(installed)
            == if Inserts(h, plan, activate) then h.(entry := h.entry.(newline := true)) else h)
  {
    var installed := Installed(h, plan, activate);
    InstalledIsPutAll(h, plan, activate);
    PutAllMeaning(h, WrittenItems(h, plan), "");
    RetiresNothing(h, plan, activate);
    UninstallEmpties(h, plan, activate);
    RequireRoundTrip(h, plan, activate, installed);
    UninstalledEntry(installed);
  }

  lemma UninstalledEntry(h: Home)
    requires Sound(h.manifest)
    ensures Uninstalled(h).entry == Unrequired(h).entry && !Uninstalled(h).marker
  {
    SweptAll(Unrequired(h), Everything);
  }

  // ---- Upgrades ----

  // What the sweep after an upgrade does to one path.
  lemma RetiredMeaning(h: Home, plan: Plan, p: string)
    requires Sound(h.manifest)
    ensures var after, covered := Retired(h, plan), plan.shell && InScope(RetireScope(plan), p);
      && Sound(after.manifest) && after.entry == h.entry && after.marker == h.marker
      && Lookup(after.files, p) == (if covered && HasRecordedContent(h, p) then None else Lookup(h.files, p))
      && Recorded(after.manifest, p)
        == (if covered && (p !in h.files || HasRecordedContent(h, p)) then None else Recorded(h.manifest, p))
  {
    var scope, records := RetireScope(plan), Records(h.manifest);
    SweptAll(h, scope);
    SweptFiles(h, records, scope, p);
    RecordedIsUntouched(h, p);
    KeptRecords(h.files, records, scope, p);
  }

  // An install writes targets of its plan only, and none of them is obsolete.
  lemma WrittenAreCurrent(h: Home, plan: Plan, p: string)
    requires WellFormed(h, plan) && ItemFor(WrittenItems(h, plan), p).Some?
    ensures p in AllTargets(plan) && !InScope(RetireScope(plan), p)
    ensures forall activate :: Acceptable(h, plan, activate) ==> Free(h, p)
  {
    var items := WrittenItems(h, plan);
    ItemForMeaning(items, p);
    var item := ItemFor(items, p).value;
    assert item in ManagedItems(plan) || item in [plan.config, plan.commissioning] || plan.hypr == Some(item);
  }

  // The state of one path after an install of any kind.
  lemma InstalledMeaning(h: Home, plan: Plan, activate: bool, p: string)
    requires WellFormed(h, plan)
    ensures var after, item := Retired(Installed(h, plan, activate), plan), ItemFor(WrittenItems(h, plan), p);
      && Sound(after.manifest)
      && (item.Some? ==>
            && Lookup(after.files, p) == Some(File(item.value.content, item.value.mode))
            && Recorded(after.manifest, p) == Some(Digest(item.value.content)))
      && (item.None? ==>
            var obsolete := plan.shell && plan.root <= p && p !in Targets(plan.managed);
            && Lookup(after.files, p) == (if obsolete && HasRecordedContent(h, p) then None else Lookup(h.files, p))
            && Recorded(after.manifest, p)
              == (if obsolete && (p !in h.files || HasRecordedContent(h, p)) then None else Recorded(h.manifest, p)))
  {
    var items, installed := WrittenItems(h, plan), Installed(h, plan, activate);
    InstalledIsPutAll(h, plan, activate);
    PutAllMeaning(h, items, p);
    RetiredMeaning(installed, plan, p);
    if ItemFor(items, p).Some? {
      WrittenAreCurrent(h, plan, p);
    } else {
      assert Lookup(installed.files, p) == Lookup(h.files, p);
      assert HasRecordedContent(installed, p) <==> HasRecordedContent(h, p);
    }
  }

  lemma ItemForAppend(items: seq<Item>, item: Item, p: string)
    ensures ItemFor(items + [item], p) == if item.target == p then Some(item) else ItemFor(items, p)
    ensures ItemFor(items + [], p) == ItemFor(items, p)
  {
    assert (items + [item])[..|items|] == items && items + [] == items;
  }

  // What an install writes at a path: a managed file; in production both
  // configs and the module; otherwise a config only where there is nothing.
  lemma WrittenMeaning(h: Home, plan: Plan, p: string)
    requires WellFormed(h, plan)
    ensures var item, production := ItemFor(WrittenItems(h, plan), p), plan.hypr.Some?;
      && (p in Targets(plan.managed) && (production ==> p != plan.hypr.value.target) ==>
            item.Some? && item == ItemFor(plan.managed, p))
      && (forall seed :: seed in {plan.config, plan.commissioning} && p == seed.target ==>
            item == if production || p !in h.files then Some(seed) else None)
      && (production && p == plan.hypr.value.target ==> item == plan.hypr)
      && (p !in AllTargets(plan) ==> item == None)
  {
    var m := plan.managed;
    ItemForMeaning(m, p);
    if plan.hypr.Some? {
      assert m + [plan.config, plan.commissioning] + [plan.hypr.value]
        == m + [plan.config] + [plan.commissioning] + [plan.hypr.value];
      ItemForAppend(m, plan.config, p);
      ItemForAppend(m + [plan.config], plan.commissioning, p);
      ItemForAppend(m + [plan.config] + [plan.commissioning], plan.hypr.value, p);
      assert plan.config in ManagedItems(plan) && plan.commissioning in ManagedItems(plan);
    } else {
      ItemForAppend(m, plan.config, p);
      ItemForAppend(m + Unseeded(h, plan.config), plan.commissioning, p);
    }
  }

  // A production install that is activated leaves the entry point with one
  // require of the module, right below its one input require; one that is not
  // leaves it as it was, without any.
  lemma ProductionEntry(h: Home, plan: Plan, activate: bool)
    requires WellFormed(h, plan) && Acceptable(h, plan, activate) && plan.hypr.Some?
    ensures var after, c := Installed(h, plan, activate), Census(Installed(h, plan, activate).entry);
      && c.inputs == 1 && after.entry.Lua?
      && (activate ==> c.modules == 1 && c.adjacents == 1)
      && (!activate ==> after.entry == h.entry && c.modules == 0)
      && (after.marker <==> h.marker || (activate && Census(h.entry).modules == 0))
  {
    InstalledIsPutAll(h, plan, activate);
    PutAllMeaning(h, WrittenItems(h, plan), "");
    InsertedCounts(LinesOf(h.entry));
  }

  // A unit that was modified since it was installed stops an uninstall.
  lemma ModifiedUnitsRefuse(h: Home, units: seq<string>, u: string)
    requires u in units && u in h.files && Recorded(h.manifest, u).Some? && !HasRecordedContent(h, u)
    ensures Refuses(h, units)
  {
    assert ModifiedUnit(h, u);
  }

  // An upgrade leaves no trace: uninstalling after it leaves every path, and
  // what is recorded of it, as uninstalling before it would have.
  lemma UpgradeThenUninstall(h: Home, plan: Plan, activate: bool, p: string)
    requires WellFormed(h, plan) && Acceptable(h, plan, activate) && p != ""
    ensures var after, before := Uninstalled(Retired(Installed(h, plan, activate), plan)), Uninstalled(h);
      Lookup(after.files, p) == Lookup(before.files, p) && Recorded(after.manifest, p) == Recorded(before.manifest, p)
  {
    var upgraded := Retired(Installed(h, plan, activate), plan);
    InstalledMeaning(h, plan, activate, p);
    UninstallKeepsUserFiles(upgraded, p);
    UninstallKeepsUserFiles(h, p);
    if ItemFor(WrittenItems(h, plan), p).Some? {
      WrittenAreCurrent(h, plan, p);
    }
  }

  // After an install or an upgrade, what the user made of an installed file
  // decides what becomes of it.
  lemma EditsSurviveAnUpgrade(h: Home, plan: Plan, activate: bool, edited: Home, p: string)
    requires WellFormed(h, plan) && p != "" && ItemFor(WrittenItems(h, plan), p).Some?
    requires edited.manifest == Retired(Installed(h, plan, activate), plan).manifest
    ensures var after, content := Uninstalled(edited), ItemFor(WrittenItems(h, plan), p).value.content;
      var untouched := p in edited.files && edited.files[p].File? && edited.files[p].content == content;
      && Lookup(after.files, p) == (if untouched then None else Lookup(edited.files, p))
      && Recorded(after.manifest, p) == (if p in edited.files && !untouched then Some(Digest(content)) else None)
  {
    InstalledMeaning(h, plan, activate, p);
    UninstallKeepsUserFiles(edited, p);
  }

  // ---- Where the scripts fall short ----

  predicate InPlace(h: Home, items: seq<Item>, p: string) {
    var item := ItemFor(items, p);
    item.Some? ==> Lookup(h.files, p) == Some(File(item.value.content, item.value.mode))
  }

  // An install stopped by a blocked seed leaves the files as they were exactly
  // if every managed file was in place already and there was a config.
  lemma WhenAStoppedInstallIsPartial(h: Home, plan: Plan)
    requires WellFormed(h, plan) && Stopped(h, plan)
    ensures Partial(h, plan).files == h.files <==>
      plan.config.target in h.files && forall t :: t in Targets(plan.managed) ==> InPlace(h, plan.managed, t)
  {
    var put, after := PutAll(h, plan.managed), Partial(h, plan);
    forall p
      ensures p != plan.config.target ==>
        (Lookup(after.files, p) == Lookup(h.files, p) <==> InPlace(h, plan.managed, p))
      ensures p == plan.config.target ==> Lookup(put.files, p) == Lookup(h.files, p)
      ensures ItemFor(plan.managed, p).Some? <==> p in Targets(plan.managed)
    {
      PutAllMeaning(h, plan.managed, p);
      ItemForMeaning(plan.managed, p);
    }
    if plan.config.target in h.files && forall t :: t in Targets(plan.managed) ==> InPlace(h, plan.managed, t) {
      SameFiles(after.files, h.files);
    }
  }

  const CONFIG := Item("config.toml", "config", 0x180) // 0600
  const ROLES := Item("commissioning.toml", "roles", 0x180)
  const DAEMON := Item("daemon.service", "unit", MODULE_MODE)
  const MODULE := Item("xeneon_edge_agents.lua", "module", MODULE_MODE)
  const INPUT_ONLY := [InputRequire("require(\"hypr.input\")")]

  function Example(hypr: Option<Item>): Plan {
    Plan([DAEMON], CONFIG, ROLES, hypr, false, "quickshell/")
  }

  lemma ExampleIsWellFormed(h: Home, hypr: Option<Item>)
    requires Sound(h.manifest) && hypr in {None, Some(MODULE)}
    ensures WellFormed(h, Example(hypr)) && "" !in AllTargets(Example(hypr))
  {
    assert CONFIG.target[0] == 'c' == ROLES.target[0] && MODULE.target[0] == 'x' && DAEMON.target[0] == 'd';
    assert Example(hypr).root[0] == 'q';
    assert Targets([DAEMON]) == {DAEMON.target};
  }

  // A home the preflight accepts, where a directory at either seed stops the
  // install after the daemon's unit was written.
  lemma ABlockedSeedLeavesAPartialInstall(seed: Item)
    requires seed in {CONFIG, ROLES}
    ensures var h, plan := Home(map[seed.target := Directory], None, NoEntryPoint, false), Example(None);
      && WellFormed(h, plan) && Acceptable(h, plan, false) && SeedBlocked(h, seed)
      && DAEMON.target !in h.files && DAEMON.target in Partial(h, plan).files
  {
    var h := Home(map[seed.target := Directory], None, NoEntryPoint, false);
    ExampleIsWellFormed(h, None);
    PutAllMeaning(h, [DAEMON], DAEMON.target);
    assert ItemFor([DAEMON], DAEMON.target) == Some(DAEMON);
  }

  // A recorded module of mode 0600 comes back from a rollback with 0644.
  lemma ARolledBackModuleIsRemoded()
    ensures var h := Home(map[MODULE.target := File(MODULE.content, 0x180)],
          Some([Record(MODULE.target, Digest(MODULE.content))]), Lua(INPUT_ONLY, true, MODULE_MODE), false);
      && WellFormed(h, Example(Some(MODULE))) && Acceptable(h, Example(Some(MODULE)), true)
      && ModuleRemoded(h, Example(Some(MODULE))) != h
  {
    var files := map[MODULE.target := File(MODULE.content, 0x180)];
    var manifest := Some([Record(MODULE.target, Digest(MODULE.content))]);
    var h := Home(files, manifest, Lua(INPUT_ONLY, true, MODULE_MODE), false);
    ExampleIsWellFormed(h, Some(MODULE));
    assert ModuleRemoded(h, Example(Some(MODULE))).files[MODULE.target].mode != files[MODULE.target].mode;
  }

  // An entry point without a final newline has one after both scripts.
  lemma AFinalNewlineIsAdded()
    ensures var h, plan := Home(map[], None, Lua(INPUT_ONLY, false, MODULE_MODE), false), Example(Some(MODULE));
      var installed := Retired(Installed(h, plan, true), plan);
      && WellFormed(h, plan) && Acceptable(h, plan, true)
      && !Refuses(installed, [DAEMON.target]) && Uninstalled(installed) != h
  {
    var h := Home(map[], None, Lua(INPUT_ONLY, false, MODULE_MODE), false);
    ExampleIsWellFormed(h, Some(MODULE));
    InstallThenUninstall(h, Example(Some(MODULE)), true, [DAEMON.target]);
  }
}
