// Managed files and the manifest that records them (scripts/lib.sh): which
// targets an install may write.

module Manifest {
  import opened Optional
  import opened HyprlandEntry

  // `Link(seen)` is a symbolic link and the regular file read through it, if any.
  datatype Node = File(content: string, mode: nat) | Link(seen: Option<string>) | Directory

  type Files = map<string, Node>

  // A collision-free hash.
  datatype Digest = Digest(content: string)

  datatype Record = Record(target: string, digest: Digest)

  type Ledger = Option<seq<Record>>

  datatype Home = Home(files: Files, manifest: Ledger, entry: EntryPoint, marker: bool)

  datatype Item = Item(target: string, content: string, mode: nat)

  // `Refused` is a deliberate refusal, `Broken` an input or output error.
  datatype Ending = Done | Refused | Broken

  // ---- The manifest ----

  function Others(records: seq<Record>, target: string): seq<Record> {
    if records == [] then []
    else (if records[0].target != target then [records[0]] else []) + Others(records[1..], target)
  }

  function RecordedIn(records: seq<Record>, target: string): Option<Digest> {
    if records == [] then None
    else
      var last := records[|records| - 1];
      if last.target == target then Some(last.digest) else RecordedIn(records[..|records| - 1], target)
  }

  function Records(manifest: Ledger): seq<Record> {
    if manifest.Some? then manifest.value else []
  }

  function Recorded(manifest: Ledger, target: string): Option<Digest> {
    RecordedIn(Records(manifest), target)
  }

  function Written(manifest: Ledger, target: string, digest: Digest): Ledger {
    Some(Others(Records(manifest), target) + [Record(target, digest)])
  }

  function Unrecorded(manifest: Ledger, target: string): Ledger {
    if manifest.None? || Others(manifest.value, target) == [] then None
    else Some(Others(manifest.value, target))
  }

  predicate DistinctTargets(records: seq<Record>) {
    forall i, j :: 0 <= i < j < |records| ==> records[i].target != records[j].target
  }

  predicate Sound(manifest: Ledger) {
    DistinctTargets(Records(manifest)) && manifest != Some([])
  }

  lemma {:induction false} OthersContents(records: seq<Record>, target: string)
    ensures forall r :: r in Others(records, target) <==> r in records && r.target != target
    ensures DistinctTargets(records) ==> DistinctTargets(Others(records, target))
  {
    if records != [] {
      OthersContents(records[1..], target);
      var rest := Others(records[1..], target);
      assert records[0] in records;
      assert forall r :: r in records <==> r == records[0] || r in records[1..];
      if DistinctTargets(records) {
        forall r | r in rest ensures r.target != records[0].target {
          assert r in records[1..];
        }
      }
    }
  }

  lemma {:induction false} NoOthers(records: seq<Record>, target: string)
    requires target !in TargetsOf(records)
    ensures Others(records, target) == records
  {
    if records != [] {
      assert records[0] in records;
      assert TargetsOf(records[1..]) <= TargetsOf(records);
      NoOthers(records[1..], target);
    }
  }

  function TargetsOf(records: seq<Record>): set<string> {
    set r | r in records :: r.target
  }

  lemma {:induction false} RecordedMeaning(records: seq<Record>, target: string)
    requires DistinctTargets(records)
    ensures forall d :: RecordedIn(records, target) == Some(d) <==> Record(target, d) in records
    ensures RecordedIn(records, target).Some? <==> target in TargetsOf(records)
  {
    if records != [] {
      var n := |records| - 1;
      RecordedMeaning(records[..n], target);
      assert records == records[..n] + [records[n]];
      assert forall r :: r in records <==> r in records[..n] || r == records[n];
      assert forall r :: r in records[..n] ==> r.target != records[n].target;
    }
  }

  // A later write is read back; nothing else recorded changes.
  lemma WriteThenRead(manifest: Ledger, target: string, digest: Digest, other: string)
    requires Sound(manifest)
    ensures Sound(Written(manifest, target, digest))
    ensures Recorded(Written(manifest, target, digest), other)
      == if other == target then Some(digest) else Recorded(manifest, other)
  {
    var records := Records(manifest);
    var written := Others(records, target) + [Record(target, digest)];
    OthersContents(records, target);
    assert written[..|written| - 1] == Others(records, target);
    if other != target {
      RecordedMeaning(records, other);
      RecordedMeaning(Others(records, target), other);
      SameRecorded(records, Others(records, target), other);
    }
  }

  lemma SameRecorded(a: seq<Record>, b: seq<Record>, target: string)
    requires DistinctTargets(a) && DistinctTargets(b)
    requires forall d :: Record(target, d) in a <==> Record(target, d) in b
    ensures RecordedIn(a, target) == RecordedIn(b, target)
  {
    RecordedMeaning(a, target);
    RecordedMeaning(b, target);
    if RecordedIn(a, target).Some? {
      assert Record(target, RecordedIn(a, target).value) in b;
    }
    assert RecordedIn(b, target).Some? ==> Record(target, RecordedIn(b, target).value) in a;
  }

  // ---- What may be overwritten ----

  predicate Untouched(files: Files, r: Record) {
    r.target in files && files[r.target].File? && Digest(files[r.target].content) == r.digest
  }

  // Nothing is there, or exactly what an earlier install recorded.
  predicate Free(h: Home, target: string) {
    || target !in h.files
    || (h.files[target].File? && Recorded(h.manifest, target) == Some(Digest(h.files[target].content)))
  }

  function Put(h: Home, item: Item): Home {
    h.(files := h.files[item.target := File(item.content, item.mode)],
       manifest := Written(h.manifest, item.target, Digest(item.content)))
  }

  function PutAll(h: Home, items: seq<Item>): Home {
    if items == [] then h else Put(PutAll(h, items[..|items| - 1]), items[|items| - 1])
  }

  function Seeded(h: Home, item: Item): Home {
    if item.target in h.files then h else Put(h, item)
  }

  function Targets(items: seq<Item>): set<string> {
    set i | i in items :: i.target
  }

  // The last item for a path.
  function ItemFor(items: seq<Item>, target: string): Option<Item> {
    if items == [] then None
    else
      var last := items[|items| - 1];
      if last.target == target then Some(last) else ItemFor(items[..|items| - 1], target)
  }

  lemma {:induction false} ItemForMeaning(items: seq<Item>, target: string)
    ensures ItemFor(items, target).Some? <==> target in Targets(items)
    ensures ItemFor(items, target).Some? ==>
      ItemFor(items, target).value in items && ItemFor(items, target).value.target == target
  {
    if items != [] {
      var n := |items| - 1;
      ItemForMeaning(items[..n], target);
      assert items == items[..n] + [items[n]];
      assert forall i :: i in items <==> i in items[..n] || i == items[n];
    }
  }

  // An install changes its targets, and what is recorded of them, and nothing else.
  lemma {:induction false} PutAllMeaning(h: Home, items: seq<Item>, p: string)
    requires Sound(h.manifest)
    ensures var after, item := PutAll(h, items), ItemFor(items, p);
      && Sound(after.manifest) && after.entry == h.entry && after.marker == h.marker
      && Lookup(after.files, p)
        == (if item.Some? then Some(File(item.value.content, item.value.mode)) else Lookup(h.files, p))
      && Recorded(after.manifest, p)
        == (if item.Some? then Some(Digest(item.value.content)) else Recorded(h.manifest, p))
  {
    if items != [] {
      var n := |items| - 1;
      PutAllMeaning(h, items[..n], p);
      WriteThenRead(PutAll(h, items[..n]).manifest, items[n].target, Digest(items[n].content), p);
    }
  }
}
