/** Checkpoints of one job in durable storage (gpu_broker/checkpoint.py): an upload is many writes,
    and only the last one makes the checkpoint visible. */
module Checkpoint {
  import opened Wrappers
  import Counting

  type Name = string

  const MANIFEST: Name := "MANIFEST.json"

  /** An object under one step's folder. */
  datatype Key = Key(step: nat, name: Name)

  /** A manifest body, or anything that does not parse as one. */
  datatype Body = Raw(data: seq<nat>) | Manifest(step: nat, files: seq<Name>)

  type Objects = map<Key, Body>

  /** One durable change. */
  datatype Op = PutObject(key: Key, body: Body) | DeleteObject(key: Key)

  /** A checkpoint as its manifest describes it. */
  datatype Ref = Ref(folder: nat, dir: Name, step: nat, files: seq<Name>)

  datatype Error = MissingManifest | MissingFile(name: Name)

  function Perform(objects: Objects, op: Op): Objects {
    match op
    case PutObject(key, body) => objects[key := body]
    case DeleteObject(key) => objects - {key}
  }

  function Replay(objects: Objects, ops: seq<Op>): Objects {
    if ops == [] then objects else Perform(Replay(objects, ops[..|ops| - 1]), ops[|ops| - 1])
  }

  lemma ReplayOne(objects: Objects, ops: seq<Op>, op: Op)
    ensures Replay(objects, ops + [op]) == Perform(Replay(objects, ops), op)
  {
    assert (ops + [op])[..|ops|] == ops;
  }

  lemma {:induction false} ReplayConcat(objects: Objects, a: seq<Op>, b: seq<Op>)
    ensures Replay(objects, a + b) == Replay(Replay(objects, a), b)
  {
    if b == [] {
      assert a + b == a;
    } else {
      var n := |b| - 1;
      ReplayConcat(objects, a, b[..n]);
      assert a + b == (a + b[..n]) + [b[n]];
      ReplayOne(objects, a + b[..n], b[n]);
    }
  }

  // -------------------------------------------------------------------- manifests

  predicate EndsWith(s: Name, suffix: Name) {
    |suffix| <= |s| && s[|s| - |suffix|..] == suffix
  }

  /** What the store takes for a manifest: on disk the exact name, in a bucket any key ending in it. */
  predicate Marks(local: bool, name: Name) {
    if local then name == MANIFEST else EndsWith(name, MANIFEST)
  }

  /** The part of a name before its last slash. */
  function DirOf(name: Name): Name {
    if name == [] then []
    else if name[|name| - 1] == '/' then name[..|name| - 1]
    else if '/' in name then DirOf(name[..|name| - 1])
    else []
  }

  function Under(dir: Name, name: Name): Name {
    if dir == [] then name else dir + "/" + name
  }

  /** `_read_manifest`. */
  function ReadManifest(key: Key, body: Body): Option<Ref> {
    match body
    case Raw(_) => None
    case Manifest(step, files) => Some(Ref(key.step, DirOf(key.name), step, files))
  }

  /** A manifest below a directory of its step names files of that directory. */
  lemma NestedManifest(folder: nat, dir: Name, step: nat, files: seq<Name>, name: Name)
    requires dir != []
    ensures var ref := ReadManifest(Key(folder, dir + "/" + MANIFEST), Manifest(step, files));
            && ref == Some(Ref(folder, dir, step, files)) && Marks(false, dir + "/" + MANIFEST)
            && FileKey(ref.value, name) == Key(folder, dir + "/" + name)
    ensures ReadManifest(Key(folder, MANIFEST), Manifest(step, files)) == Some(Ref(folder, [], step, files))
    ensures FileKey(Ref(folder, [], step, files), name) == Key(folder, name)
  {
    assert '/' !in MANIFEST;
    DirAbove(dir, MANIFEST);
    ManifestName(false);
    assert (dir + "/" + MANIFEST)[|dir + "/"|..] == MANIFEST;
  }

  lemma {:induction false} DirAbove(dir: Name, last: Name)
    requires '/' !in last
    ensures DirOf(dir + "/" + last) == dir
  {
    var name := dir + "/" + last;
    if last == [] {
      assert name[..|name| - 1] == dir;
    } else {
      var n := |last| - 1;
      assert name[..|name| - 1] == dir + "/" + last[..n] && name[|name| - 1] == last[n];
      assert '/' in name;
      DirAbove(dir, last[..n]);
    }
  }

  ghost predicate Readable(local: bool, objects: Objects, ref: Ref) {
    exists key :: key in objects && Marks(local, key.name) && ReadManifest(key, objects[key]) == Some(ref)
  }

  /** A complete checkpoint that no other is newer than, or none when there is none. */
  ghost predicate Newest(local: bool, objects: Objects, r: Option<Ref>) {
    match r
    case None => forall ref :: !Readable(local, objects, ref)
    case Some(best) =>
      Readable(local, objects, best) && forall ref :: Readable(local, objects, ref) ==> ref.step <= best.step
  }

  function FileKey(ref: Ref, name: Name): Key {
    Key(ref.folder, Under(ref.dir, name))
  }

  /** What restoring gives back: every file the manifest names, or the first one that is missing. */
  function Restored(objects: Objects, ref: Ref, n: nat): Result<map<Name, Body>, Error>
    requires n <= |ref.files|
  {
    if n == 0 then Ok(map[])
    else
      match Restored(objects, ref, n - 1)
      case Err(e) => Err(e)
      case Ok(files) =>
        var name := ref.files[n - 1];
        if FileKey(ref, name) in objects then Ok(files[name := objects[FileKey(ref, name)]])
        else Err(MissingFile(name))
  }

  // ------------------------------------------------------------------- uploading

  /** The files of a directory: every name once, in sorted order. */
  datatype Source = Source(names: seq<Name>, bodies: map<Name, Body>)

  predicate Proper(local: bool, s: Source) {
    && (forall i :: 0 <= i < |s.names| ==> s.names[i] in s.bodies && !Marks(local, s.names[i]))
    && (forall name :: name in s.bodies ==> name in s.names)
  }

  function FileOps(step: nat, s: Source): seq<Op>
    requires forall i :: 0 <= i < |s.names| ==> s.names[i] in s.bodies
  {
    seq(|s.names|, i requires 0 <= i < |s.names| => PutObject(Key(step, s.names[i]), s.bodies[s.names[i]]))
  }

  function ManifestOp(step: nat, s: Source): Op {
    PutObject(Key(step, MANIFEST), Manifest(step, s.names))
  }

  /** Every durable change of one upload, the manifest last. */
  function PutOps(step: nat, s: Source): seq<Op>
    requires forall i :: 0 <= i < |s.names| ==> s.names[i] in s.bodies
  {
    FileOps(step, s) + [ManifestOp(step, s)]
  }

  /** No manifest of this step has landed yet. Leftovers of uploads that were cut off may be there. */
  ghost predicate NotYetVisible(local: bool, objects: Objects, step: nat) {
    forall key :: key in objects && key.step == step ==> !Marks(local, key.name)
  }

  /** Changes that stay inside one step's folder and touch nothing that looks like a manifest. */
  predicate Quiet(local: bool, step: nat, op: Op) {
    op.key.step == step && !Marks(local, op.key.name)
  }

  /** Outside the folder nothing changes, and inside it nothing that could be seen does. */
  ghost predicate SameButHidden(local: bool, a: Objects, b: Objects, step: nat) {
    forall key: Key :: key.step != step || Marks(local, key.name) ==>
      (key in a <==> key in b) && (key in a ==> a[key] == b[key])
  }

  lemma {:induction false} QuietOps(local: bool, objects: Objects, step: nat, ops: seq<Op>)
    requires forall i :: 0 <= i < |ops| ==> Quiet(local, step, ops[i])
    ensures SameButHidden(local, objects, Replay(objects, ops), step)
  {
    if ops != [] {
      var n := |ops| - 1;
      QuietOps(local, objects, step, ops[..n]);
      assert Quiet(local, step, ops[n]);
    }
  }

  lemma SameNewest(local: bool, a: Objects, b: Objects, step: nat, r: Option<Ref>)
    requires SameButHidden(local, a, b, step)
    ensures Newest(local, a, r) <==> Newest(local, b, r)
  {
    forall ref ensures Readable(local, a, ref) <==> Readable(local, b, ref) {
      if key :| key in a && Marks(local, key.name) && ReadManifest(key, a[key]) == Some(ref) {
        assert key in b && Marks(local, key.name) && ReadManifest(key, b[key]) == Some(ref);
      }
      if key :| key in b && Marks(local, key.name) && ReadManifest(key, b[key]) == Some(ref) {
        assert key in a && Marks(local, key.name) && ReadManifest(key, a[key]) == Some(ref);
      }
    }
  }

  lemma {:induction false} SameRestored(a: Objects, b: Objects, ref: Ref, n: nat)
    requires n <= |ref.files|
    requires forall key: Key :: key.step == ref.folder ==> (key in a <==> key in b) && (key in a ==> a[key] == b[key])
    ensures Restored(a, ref, n) == Restored(b, ref, n)
  {
    if 0 < n {
      SameRestored(a, b, ref, n - 1);
    }
  }

  /** An upload cut off after any number of its writes short of the last, and of the deletions of leftovers
      before them, leaves the newest checkpoint what it was, and every other checkpoint as restorable as it was. */
  lemma CutUploadIsInvisible(local: bool, objects: Objects, step: nat, wipe: seq<Key>, s: Source, k: nat)
    requires Proper(local, s) && NotYetVisible(local, objects, step)
    requires forall i :: 0 <= i < |wipe| ==> wipe[i].step == step && wipe[i] in objects
    requires k <= |wipe| + |s.names|
    ensures var cut := Replay(objects, (WipeOps(wipe) + PutOps(step, s))[..k]);
            && (forall r :: Newest(local, cut, r) <==> Newest(local, objects, r))
            && (forall ref: Ref :: ref.folder != step ==>
                  Restored(cut, ref, |ref.files|) == Restored(objects, ref, |ref.files|))
            && NotYetVisible(local, cut, step)
  {
    var ops := (WipeOps(wipe) + PutOps(step, s))[..k];
    var cut := Replay(objects, ops);
    forall i | 0 <= i < |ops| ensures Quiet(local, step, ops[i]) {
      if i < |wipe| {
        assert ops[i] == DeleteObject(wipe[i]);
      } else {
        assert ops[i] == FileOps(step, s)[i - |wipe|];
      }
    }
    QuietOps(local, objects, step, ops);
    forall r ensures Newest(local, cut, r) <==> Newest(local, objects, r) {
      SameNewest(local, objects, cut, step, r);
    }
    forall ref: Ref | ref.folder != step
      ensures Restored(cut, ref, |ref.files|) == Restored(objects, ref, |ref.files|)
    {
      SameRestored(objects, cut, ref, |ref.files|);
    }
  }

  /** What a local put does to leftovers of the same step before it copies anything. */
  function WipeOps(keys: seq<Key>): seq<Op> {
    seq(|keys|, i requires 0 <= i < |keys| => DeleteObject(keys[i]))
  }

  lemma {:induction false} FilesLand(objects: Objects, step: nat, s: Source, n: nat)
    requires (forall i :: 0 <= i < |s.names| ==> s.names[i] in s.bodies) && n <= |s.names|
    ensures forall i :: 0 <= i < n ==>
              var cut := Replay(objects, FileOps(step, s)[..n]);
              Key(step, s.names[i]) in cut && cut[Key(step, s.names[i])] == s.bodies[s.names[i]]
  {
    if 0 < n {
      FilesLand(objects, step, s, n - 1);
      assert FileOps(step, s)[..n] == FileOps(step, s)[..n - 1] + [FileOps(step, s)[n - 1]];
      ReplayOne(objects, FileOps(step, s)[..n - 1], FileOps(step, s)[n - 1]);
    }
  }

  function RefOf(step: nat, s: Source): Ref {
    Ref(step, [], step, s.names)
  }

  lemma ManifestName(local: bool)
    ensures Marks(local, MANIFEST) && DirOf(MANIFEST) == []
  {
    assert MANIFEST[|MANIFEST| - |MANIFEST|..] == MANIFEST;
    assert '/' !in MANIFEST;
  }

  lemma {:induction false} RestoresWhatIsThere(objects: Objects, step: nat, s: Source, n: nat)
    requires n <= |s.names|
    requires forall i :: 0 <= i < |s.names| ==>
               && s.names[i] in s.bodies && Key(step, s.names[i]) in objects
               && objects[Key(step, s.names[i])] == s.bodies[s.names[i]]
    ensures Restored(objects, RefOf(step, s), n).Ok?
    ensures var got := Restored(objects, RefOf(step, s), n).value;
            && (forall name :: name in got <==> name in s.names[..n])
            && (forall name :: name in got ==> name in s.bodies && got[name] == s.bodies[name])
  {
    if 0 < n {
      RestoresWhatIsThere(objects, step, s, n - 1);
      assert s.names[..n] == s.names[..n - 1] + [s.names[n - 1]];
    }
  }

  lemma UploadRestores(local: bool, objects: Objects, step: nat, s: Source)
    requires Proper(local, s)
    ensures Restored(Replay(objects, PutOps(step, s)), RefOf(step, s), |s.names|) == Ok(s.bodies)
  {
    var files, op := FileOps(step, s), ManifestOp(step, s);
    var after := Replay(objects, PutOps(step, s));
    ReplayOne(objects, files, op);
    FilesLand(objects, step, s, |s.names|);
    assert files[..|s.names|] == files;
    ManifestName(local);
    forall i | 0 <= i < |s.names|
      ensures Key(step, s.names[i]) in after && after[Key(step, s.names[i])] == s.bodies[s.names[i]]
    {
      assert s.names[i] != MANIFEST;
    }
    RestoresWhatIsThere(after, step, s, |s.names|);
    assert s.names[..|s.names|] == s.names;
    var got := Restored(after, RefOf(step, s), |s.names|).value;
    assert got == s.bodies;
  }

  lemma UploadIsSeen(local: bool, objects: Objects, step: nat, s: Source)
    requires Proper(local, s)
    ensures var after := Replay(objects, PutOps(step, s));
            && Readable(local, after, RefOf(step, s))
            && forall ref :: Readable(local, after, ref) ==> ref == RefOf(step, s) || Readable(local, objects, ref)
  {
    var files, op := FileOps(step, s), ManifestOp(step, s);
    var cut, after := Replay(objects, files), Replay(objects, PutOps(step, s));
    ReplayOne(objects, files, op);
    ManifestName(local);
    var key := Key(step, MANIFEST);
    assert key in after && ReadManifest(key, after[key]) == Some(RefOf(step, s));
    QuietOps(local, objects, step, files);
    forall ref | Readable(local, after, ref) ensures ref == RefOf(step, s) || Readable(local, objects, ref) {
      var k :| k in after && Marks(local, k.name) && ReadManifest(k, after[k]) == Some(ref);
      if k != key {
        assert k in objects && Marks(local, k.name) && ReadManifest(k, objects[k]) == Some(ref);
      }
    }
  }

  /** A finished upload restores exactly the files it was given, whatever uploads cut off before it
      left behind; and it is the newest checkpoint when every one on record has an earlier step. */
  lemma FinishedUploadRestores(local: bool, objects: Objects, step: nat, s: Source)
    requires Proper(local, s)
    ensures var after := Replay(objects, PutOps(step, s));
            && Readable(local, after, RefOf(step, s))
            && Restored(after, RefOf(step, s), |s.names|) == Ok(s.bodies)
            && ((forall ref :: Readable(local, objects, ref) ==> ref.step < step) ==>
                  forall r :: Newest(local, after, r) <==> r == Some(RefOf(step, s)))
  {
    hide Replay, PutOps, Restored, Readable, Newest;
    UploadRestores(local, objects, step, s);
    UploadIsSeen(local, objects, step, s);
    if forall ref :: Readable(local, objects, ref) ==> ref.step < step {
      forall r ensures Newest(local, Replay(objects, PutOps(step, s)), r) <==> r == Some(RefOf(step, s)) {
        OnlyNewest(local, Replay(objects, PutOps(step, s)), RefOf(step, s), r);
      }
    }
  }

  lemma OnlyNewest(local: bool, objects: Objects, best: Ref, r: Option<Ref>)
    requires Readable(local, objects, best)
    requires forall ref :: Readable(local, objects, ref) ==> ref == best || ref.step < best.step
    ensures Newest(local, objects, r) <==> r == Some(best)
  {
    hide Readable;
  }

  // ------------------------------------------------------- uploading a step a second time

  /** What restoring the first upload gives while the second has written its first `j` files. */
  function Mixture(first: Source, second: Source, j: nat): map<Name, Body>
    requires j <= |second.names|
  {
    map name | name in first.bodies ::
      if name in second.names[..j] && name in second.bodies then second.bodies[name] else first.bodies[name]
  }

  lemma {:induction false} RestoresMixture(objects: Objects, step: nat, first: Source, second: Source, j: nat, n: nat)
    requires n <= |first.names| && j <= |second.names|
    requires forall name :: name in first.names <==> name in first.bodies
    requires forall name :: name in first.bodies ==>
               Key(step, name) in objects && objects[Key(step, name)] == Mixture(first, second, j)[name]
    ensures var r := Restored(objects, RefOf(step, first), n);
            && r.Ok? && (forall name :: name in r.value <==> name in first.names[..n])
            && forall name :: name in r.value ==> name in first.bodies && r.value[name] == Mixture(first, second, j)[name]
  {
    if 0 < n {
      RestoresMixture(objects, step, first, second, j, n - 1);
      assert first.names[..n] == first.names[..n - 1] + [first.names[n - 1]];
      assert first.names[n - 1] in first.names;
    }
  }

  /** What a folder holds after the first `n` files of an upload. */
  lemma {:induction false} FilesWritten(objects: Objects, step: nat, s: Source, n: nat)
    requires (forall i :: 0 <= i < |s.names| ==> s.names[i] in s.bodies) && n <= |s.names|
    ensures var cut := Replay(objects, FileOps(step, s)[..n]);
            forall key :: && (key in cut <==> key in objects || (key.step == step && key.name in s.names[..n]))
                          && (key in cut ==> cut[key] == (if key.step == step && key.name in s.names[..n]
                                                          then s.bodies[key.name] else objects[key]))
  {
    if 0 < n {
      FilesWritten(objects, step, s, n - 1);
      var ops := FileOps(step, s);
      assert ops[..n] == ops[..n - 1] + [ops[n - 1]];
      ReplayOne(objects, ops[..n - 1], ops[n - 1]);
      assert s.names[..n] == s.names[..n - 1] + [s.names[n - 1]];
    }
  }

  /** What a finished upload of proper files leaves in its folder. */
  lemma FinishedKeys(objects: Objects, step: nat, s: Source)
    requires Proper(false, s)
    ensures var after := Replay(objects, PutOps(step, s));
            && Key(step, MANIFEST) in after && after[Key(step, MANIFEST)] == Manifest(step, s.names)
            && forall name :: name in s.bodies ==> Key(step, name) in after && after[Key(step, name)] == s.bodies[name]
  {
    hide Marks;
    ManifestName(false);
    ReplayOne(objects, FileOps(step, s), ManifestOp(step, s));
    FilesWritten(objects, step, s, |s.names|);
    assert FileOps(step, s)[..|s.names|] == FileOps(step, s) && s.names[..|s.names|] == s.names;
  }

  lemma ProperPrefix(local: bool, s: Source, j: nat)
    requires Proper(local, s) && j <= |s.names|
    ensures forall name :: name in s.names[..j] ==> name in s.bodies && name != MANIFEST
    ensures forall name :: name in s.names <==> name in s.bodies
  {
    ManifestName(local);
    forall name | name in s.names[..j] ensures name in s.bodies && name != MANIFEST {
      var i :| 0 <= i < j && s.names[..j][i] == name;
      assert s.names[i] == name;
    }
  }

  /** A second upload of a step to a bucket, cut off before its manifest: the first one's manifest is still there,
      over the second one's files wherever both have a file. */
  lemma SecondUploadMixes(objects: Objects, step: nat, first: Source, second: Source, j: nat)
    requires Proper(false, first) && Proper(false, second) && j <= |second.names|
    ensures var cut := Replay(Replay(objects, PutOps(step, first)), PutOps(step, second)[..j]);
            && Readable(false, cut, RefOf(step, first))
            && Restored(cut, RefOf(step, first), |first.names|) == Ok(Mixture(first, second, j))
  {
    hide Replay, Restored, Readable, EndsWith, Marks, DirOf;
    var before := Replay(objects, PutOps(step, first));
    var cut := Replay(before, PutOps(step, second)[..j]);
    FinishedKeys(objects, step, first);
    ProperPrefix(false, second, j);
    ProperPrefix(false, first, |first.names|);
    assert PutOps(step, second)[..j] == FileOps(step, second)[..j];
    FilesWritten(before, step, second, j);
    assert Key(step, MANIFEST) in cut && cut[Key(step, MANIFEST)] == Manifest(step, first.names);
    assert forall name :: name in first.bodies ==>
             Key(step, name) in cut && cut[Key(step, name)] == Mixture(first, second, j)[name];
    MixedFolder(cut, step, first, second, j);
  }

  lemma MixedFolder(cut: Objects, step: nat, first: Source, second: Source, j: nat)
    requires j <= |second.names| && forall name :: name in first.names <==> name in first.bodies
    requires Key(step, MANIFEST) in cut && cut[Key(step, MANIFEST)] == Manifest(step, first.names)
    requires forall name :: name in first.bodies ==>
               Key(step, name) in cut && cut[Key(step, name)] == Mixture(first, second, j)[name]
    ensures Readable(false, cut, RefOf(step, first))
    ensures Restored(cut, RefOf(step, first), |first.names|) == Ok(Mixture(first, second, j))
  {
    hide Marks, DirOf;
    ManifestName(false);
    assert ReadManifest(Key(step, MANIFEST), cut[Key(step, MANIFEST)]) == Some(RefOf(step, first));
    RestoresMixture(cut, step, first, second, j, |first.names|);
    assert first.names[..|first.names|] == first.names;
    assert Restored(cut, RefOf(step, first), |first.names|).value == Mixture(first, second, j);
  }

  /** The files both uploads have, with different contents. */
  function Changed(first: Source, second: Source): set<Name> {
    set name | name in first.bodies && name in second.bodies && first.bodies[name] != second.bodies[name]
  }

  /** Uploading a step twice to a bucket is safe at every cut, giving back one upload or the other whole, if and only
      if no file both have has changed, or exactly one has and both have the same files. Otherwise some cut
      gives back a mixture that was never anybody's checkpoint. */
  lemma SecondUploadIsWholeIff(objects: Objects, step: nat, first: Source, second: Source)
    requires Proper(false, first) && Proper(false, second)
    ensures (forall j :: 0 <= j <= |second.names| ==>
               Restored(Replay(Replay(objects, PutOps(step, first)), PutOps(step, second)[..j]),
                        RefOf(step, first), |first.names|)
                 in {Ok(first.bodies), Ok(second.bodies)})
       <==> Changed(first, second) == {}
            || (|Changed(first, second)| == 1 && first.bodies.Keys == second.bodies.Keys)
  {
    hide Replay, Restored, Marks;
    forall j | 0 <= j <= |second.names|
      ensures Restored(Replay(Replay(objects, PutOps(step, first)), PutOps(step, second)[..j]), RefOf(step, first),
                       |first.names|) == Ok(Mixture(first, second, j))
    {
      SecondUploadMixes(objects, step, first, second, j);
    }
    MixtureIsWholeIff(first, second);
  }

  ghost predicate AlwaysWhole(first: Source, second: Source) {
    forall j :: 0 <= j <= |second.names| ==> Mixture(first, second, j) in {first.bodies, second.bodies}
  }

  lemma MixtureIsWholeIff(first: Source, second: Source)
    requires forall name :: name in second.bodies ==> name in second.names
    ensures AlwaysWhole(first, second)
       <==> Changed(first, second) == {}
            || (|Changed(first, second)| == 1 && first.bodies.Keys == second.bodies.Keys)
  {
    var changed := Changed(first, second);
    if changed == {} {
      forall j | 0 <= j <= |second.names| ensures Mixture(first, second, j) == first.bodies {
        NoneChanged(first, second, j);
      }
    } else if |changed| == 1 && first.bodies.Keys == second.bodies.Keys {
      forall j | 0 <= j <= |second.names| ensures Mixture(first, second, j) in {first.bodies, second.bodies} {
        OneChanged(first, second, j);
      }
    } else {
      FirstChangeShows(first, second);
    }
  }

  lemma NoneChanged(first: Source, second: Source, j: nat)
    requires j <= |second.names| && Changed(first, second) == {}
    ensures Mixture(first, second, j) == first.bodies
  {
    forall name | name in first.bodies ensures Mixture(first, second, j)[name] == first.bodies[name] {
      assert name !in Changed(first, second);
    }
  }

  lemma OneChanged(first: Source, second: Source, j: nat)
    requires j <= |second.names| && |Changed(first, second)| == 1 && first.bodies.Keys == second.bodies.Keys
    ensures Mixture(first, second, j) == first.bodies || Mixture(first, second, j) == second.bodies
  {
    var it :| it in Changed(first, second);
    assert |Changed(first, second) - {it}| == 0;
    forall name | name in first.bodies && name != it ensures first.bodies[name] == second.bodies[name] {
      assert name in second.bodies.Keys;
      assert name !in Changed(first, second) - {it};
    }
    if it in second.names[..j] {
      assert Mixture(first, second, j) == second.bodies;
    } else {
      assert Mixture(first, second, j) == first.bodies;
    }
  }

  /** As soon as one changed file is written the first upload is gone; the second is not there yet while another
      changed file is missing, and never is when the files differ. */
  lemma FirstChangeShows(first: Source, second: Source)
    requires forall name :: name in second.bodies ==> name in second.names
    requires Changed(first, second) != {}
    requires |Changed(first, second)| != 1 || first.bodies.Keys != second.bodies.Keys
    ensures !AlwaysWhole(first, second)
  {
    var some :| some in Changed(first, second);
    var at: nat :| at < |second.names| && second.names[at] == some;
    var i := FirstOf(second.names, Changed(first, second), at);
    var it := second.names[i];
    assert it in second.names[..i + 1] by {
      assert second.names[..i + 1][i] == it;
    }
    var mixed := Mixture(first, second, i + 1);
    assert mixed[it] != first.bodies[it];
    if first.bodies.Keys == second.bodies.Keys {
      Lone(Changed(first, second), it);
      var other :| other in Changed(first, second) - {it};
      assert other !in second.names[..i + 1];
      assert mixed[other] == first.bodies[other] && second.bodies[other] != mixed[other];
    } else {
      assert mixed.Keys == first.bodies.Keys;
    }
    assert mixed !in {first.bodies, second.bodies};
  }

  lemma Lone<T>(s: set<T>, x: T)
    requires x in s
    ensures s - {x} == {} ==> |s| == 1
  {
    if s - {x} == {} {
      assert s == {x};
    }
  }

  lemma {:induction false} FirstOf(names: seq<Name>, wanted: set<Name>, at: nat) returns (i: nat)
    requires at < |names| && names[at] in wanted
    ensures i <= at && names[i] in wanted && forall k :: 0 <= k < i ==> names[k] !in wanted
  {
    if k: nat :| k < at && names[k] in wanted {
      i := FirstOf(names, wanted, k);
    } else {
      i := at;
    }
  }

  /** The smallest case: two files, both changed. After one write the bucket restores the new first file with
      the old second one. */
  lemma SecondUploadTears()
    ensures var first, second := Source(["a", "b"], map["a" := Raw([1]), "b" := Raw([1])]),
                            Source(["a", "b"], map["a" := Raw([2]), "b" := Raw([2])]);
            var cut := Replay(Replay(map[], PutOps(7, first)), PutOps(7, second)[..1]);
            Restored(cut, RefOf(7, first), 2) == Ok(map["a" := Raw([2]), "b" := Raw([1])])
  {
    hide Marks, Replay, Restored;
    var first, second := Source(["a", "b"], map["a" := Raw([1]), "b" := Raw([1])]),
                    Source(["a", "b"], map["a" := Raw([2]), "b" := Raw([2])]);
    PlainNames();
    SecondUploadMixes(map[], 7, first, second, 1);
    assert second.names[..1] == ["a"];
    assert Mixture(first, second, 1) == map["a" := Raw([2]), "b" := Raw([1])];
  }

  lemma PlainNames()
    ensures !Marks(false, "a") && !Marks(false, "b")
  {
  }

  // ------------------------------------------------ the same on disk, where the folder goes first

  lemma {:induction false} WipedKeys(objects: Objects, wipe: seq<Key>, w: nat)
    requires w <= |wipe|
    ensures var cut := Replay(objects, WipeOps(wipe)[..w]);
            forall key :: (key in cut <==> key in objects && key !in wipe[..w]) && (key in cut ==> cut[key] == objects[key])
  {
    if 0 < w {
      WipedKeys(objects, wipe, w - 1);
      var ops := WipeOps(wipe);
      assert ops[..w] == ops[..w - 1] + [ops[w - 1]] && wipe[..w] == wipe[..w - 1] + [wipe[w - 1]];
      ReplayOne(objects, ops[..w - 1], ops[w - 1]);
    }
  }

  /** How many of these keys an upload cut after `k` effects has removed. */
  function GoneBy(wipe: seq<Key>, k: nat): seq<Key> {
    if k < |wipe| then wipe[..k] else wipe
  }

  /** The manifest is still there, and some file it names is not. */
  ghost predicate HalfGone(step: nat, s: Source, gone: seq<Key>) {
    Key(step, MANIFEST) !in gone && exists name :: name in s.bodies && Key(step, name) in gone
  }

  lemma {:induction false} MissingFails(objects: Objects, ref: Ref, i: nat, n: nat)
    requires i < n <= |ref.files| && FileKey(ref, ref.files[i]) !in objects
    ensures Restored(objects, ref, n).Err?
  {
    if i < n - 1 {
      MissingFails(objects, ref, i, n - 1);
    }
  }

  /** What the folder of a finished upload still gives while its keys are going. */
  lemma WhileWiped(before: Objects, cut: Objects, step: nat, s: Source, gone: seq<Key>)
    requires Proper(true, s)
    requires Key(step, MANIFEST) in before && before[Key(step, MANIFEST)] == Manifest(step, s.names)
    requires forall name :: name in s.bodies ==> Key(step, name) in before && before[Key(step, name)] == s.bodies[name]
    requires forall key :: (key in cut <==> key in before && key !in gone) && (key in cut ==> cut[key] == before[key])
    ensures Readable(true, cut, RefOf(step, s)) <==> Key(step, MANIFEST) !in gone
    ensures (forall name :: name in s.bodies ==> Key(step, name) !in gone) ==>
              Restored(cut, RefOf(step, s), |s.names|) == Ok(s.bodies)
    ensures (exists name :: name in s.bodies && Key(step, name) in gone) ==>
              Restored(cut, RefOf(step, s), |s.names|).Err?
    ensures Newest(true, before, Some(RefOf(step, s))) && Key(step, MANIFEST) !in gone ==>
              Newest(true, cut, Some(RefOf(step, s)))
  {
    hide DirOf;
    ManifestName(true);
    ProperPrefix(true, s, |s.names|);
    assert s.names[..|s.names|] == s.names;
    if Key(step, MANIFEST) !in gone {
      assert ReadManifest(Key(step, MANIFEST), cut[Key(step, MANIFEST)]) == Some(RefOf(step, s));
    }
    if name :| name in s.bodies && Key(step, name) in gone {
      var i: nat :| i < |s.names| && s.names[i] == name;
      MissingFails(cut, RefOf(step, s), i, |s.names|);
    } else {
      RestoresWhatIsThere(cut, step, s, |s.names|);
      assert Restored(cut, RefOf(step, s), |s.names|).value == s.bodies;
    }
    forall ref | Readable(true, cut, ref) ensures Readable(true, before, ref) {
      var key :| key in cut && Marks(true, key.name) && ReadManifest(key, cut[key]) == Some(ref);
      assert key in before && ReadManifest(key, before[key]) == Some(ref);
    }
  }

  /** While the folder is being removed, the rest of it is as it was. */
  lemma WipingCut(before: Objects, step: nat, second: Source, wipe: seq<Key>, k: nat)
    requires Proper(true, second) && k <= |wipe|
    ensures var cut := UploadCut(before, step, wipe, second, k);
            forall key :: (key in cut <==> key in before && key !in GoneBy(wipe, k)) && (key in cut ==> cut[key] == before[key])
  {
    hide Marks, Replay;
    WipedKeys(before, wipe, k);
    assert (WipeOps(wipe) + PutOps(step, second))[..k] == WipeOps(wipe)[..k];
    assert wipe[..|wipe|] == wipe;
  }

  /** Once it is gone there is no manifest until the last effect. */
  lemma WipedCut(before: Objects, step: nat, second: Source, wipe: seq<Key>, k: nat)
    requires Proper(true, second) && |wipe| < k <= |wipe| + |second.names| && Key(step, MANIFEST) in wipe
    ensures Key(step, MANIFEST) !in UploadCut(before, step, wipe, second, k)
  {
    hide Marks, Replay;
    var j := k - |wipe|;
    var wiped := Replay(before, WipeOps(wipe));
    assert (WipeOps(wipe) + PutOps(step, second))[..k] == WipeOps(wipe) + FileOps(step, second)[..j];
    assert WipeOps(wipe)[..|wipe|] == WipeOps(wipe) && wipe[..|wipe|] == wipe;
    ReplayConcat(before, WipeOps(wipe), FileOps(step, second)[..j]);
    WipedKeys(before, wipe, |wipe|);
    assert Key(step, MANIFEST) !in wiped;
    FilesWritten(wiped, step, second, j);
    ProperPrefix(true, second, j);
  }

  lemma OneManifestPerFolder(objects: Objects, step: nat, s: Source)
    requires Key(step, MANIFEST) !in objects
    ensures !Readable(true, objects, RefOf(step, s))
  {
  }

  lemma FinishedOnDisk(objects: Objects, step: nat, s: Source)
    requires Proper(true, s)
    ensures var after := Replay(objects, PutOps(step, s));
            && Key(step, MANIFEST) in after && after[Key(step, MANIFEST)] == Manifest(step, s.names)
            && forall name :: name in s.bodies ==> Key(step, name) in after && after[Key(step, name)] == s.bodies[name]
  {
    ReplayOne(objects, FileOps(step, s), ManifestOp(step, s));
    FilesWritten(objects, step, s, |s.names|);
    assert FileOps(step, s)[..|s.names|] == FileOps(step, s) && s.names[..|s.names|] == s.names;
  }

  /** Putting a step a second time on disk, cut anywhere short of the new manifest: the first upload can be seen and not
      restored exactly when some of its files are gone and its manifest is not. If it was the newest, `latest`
      then still answers with it, and restoring fails; once the manifest is gone it is simply no longer there. */
  lemma DiskSecondUploadBreaksIff(objects: Objects, step: nat, first: Source, second: Source, wipe: seq<Key>, k: nat)
    requires Proper(true, first) && Proper(true, second) && k <= |wipe| + |second.names|
    requires forall key :: key in Replay(objects, PutOps(step, first)) && key.step == step ==> key in wipe
    requires forall i :: 0 <= i < |wipe| ==> wipe[i].step == step
    ensures var before := Replay(objects, PutOps(step, first)); var cut := UploadCut(before, step, wipe, second, k);
            var ref := RefOf(step, first);
            && (Readable(true, cut, ref) <==> Key(step, MANIFEST) !in GoneBy(wipe, k))
            && ((Readable(true, cut, ref) && Restored(cut, ref, |ref.files|) != Ok(first.bodies))
                <==> HalfGone(step, first, GoneBy(wipe, k)))
            && (Newest(true, before, Some(ref)) && HalfGone(step, first, GoneBy(wipe, k)) ==>
                  Newest(true, cut, Some(ref)) && Restored(cut, ref, |ref.files|).Err?)
  {
    hide Replay, UploadCut, Restored, Readable, Newest, Marks;
    FinishedOnDisk(objects, step, first);
    var before := Replay(objects, PutOps(step, first));
    if k <= |wipe| {
      WipingCut(before, step, second, wipe, k);
      WhileWiped(before, UploadCut(before, step, wipe, second, k), step, first, GoneBy(wipe, k));
    } else {
      WipedCut(before, step, second, wipe, k);
      OneManifestPerFolder(UploadCut(before, step, wipe, second, k), step, first);
    }
  }

  /** So whether it is safe is up to the order the folder is removed in: at every cut if and only if the manifest goes
      before any of the files it names. The order of `rmtree` is not fixed. */
  lemma DiskSecondUploadSafeIff(step: nat, s: Source, wipe: seq<Key>)
    ensures (forall k: nat :: !HalfGone(step, s, GoneBy(wipe, k)))
       <==> forall i :: 0 <= i < |wipe| && wipe[i].step == step && wipe[i].name in s.bodies ==>
              Key(step, MANIFEST) in wipe[..i + 1]
  {
    if i :| 0 <= i < |wipe| && wipe[i].step == step && wipe[i].name in s.bodies && Key(step, MANIFEST) !in wipe[..i + 1] {
      assert GoneBy(wipe, i + 1) == wipe[..i + 1] by {
        assert wipe[..|wipe|] == wipe;
      }
      assert wipe[..i + 1][i] == wipe[i] == Key(step, wipe[i].name);
      assert HalfGone(step, s, GoneBy(wipe, i + 1));
    }
    if k: nat :| HalfGone(step, s, GoneBy(wipe, k)) {
      var gone := GoneBy(wipe, k);
      var name :| name in s.bodies && Key(step, name) in gone;
      var i :| 0 <= i < |gone| && gone[i] == Key(step, name);
      assert wipe[i] == gone[i] && wipe[..i + 1] == gone[..i + 1];
      assert Key(step, MANIFEST) !in wipe[..i + 1];
    }
  }

  // --------------------------------------------------------- names taken for a manifest

  /** This file cannot be taken for a newer checkpoint: it is not named like a manifest, or does not parse as
      one, or some checkpoint already there is newer than what it says. */
  ghost predicate Outshone(local: bool, objects: Objects, name: Name, body: Body) {
    Marks(local, name) && body.Manifest? ==> exists ref :: Readable(local, objects, ref) && body.step < ref.step
  }

  /** How many files an upload cut after `k` effects has written, when it had this much to wipe first. */
  function FilesBy(wipe: seq<Key>, k: nat): nat {
    if k < |wipe| then 0 else k - |wipe|
  }

  /** The objects such an upload leaves. */
  function UploadCut(objects: Objects, step: nat, wipe: seq<Key>, s: Source, k: nat): Objects
    requires (forall i :: 0 <= i < |s.names| ==> s.names[i] in s.bodies) && k <= |wipe| + |s.names|
  {
    Replay(objects, (WipeOps(wipe) + PutOps(step, s))[..k])
  }

  /** What a cut upload of any files shows: what was visible, and each file written so far that looks like a
      manifest and parses as one. */
  lemma CutUploadShows(local: bool, objects: Objects, step: nat, wipe: seq<Key>, s: Source, k: nat, ref: Ref)
    requires (forall i :: 0 <= i < |s.names| ==> s.names[i] in s.bodies) && NotYetVisible(local, objects, step)
    requires forall i :: 0 <= i < |wipe| ==> wipe[i].step == step
    requires k <= |wipe| + |s.names|
    ensures Readable(local, UploadCut(objects, step, wipe, s, k), ref)
       <==> Readable(local, objects, ref)
            || exists i :: 0 <= i < FilesBy(wipe, k) && Marks(local, s.names[i])
                           && ReadManifest(Key(step, s.names[i]), s.bodies[s.names[i]]) == Some(ref)
  {
    hide Marks, ReadManifest, UploadCut;
    var cut, j := UploadCut(objects, step, wipe, s, k), FilesBy(wipe, k);
    CutUploadKeys(objects, step, wipe, s, k);
    if Readable(local, objects, ref) {
      var key :| key in objects && Marks(local, key.name) && ReadManifest(key, objects[key]) == Some(ref);
      assert key.step != step;
      assert key in cut && cut[key] == objects[key];
    }
    if i :| 0 <= i < j && Marks(local, s.names[i])
            && ReadManifest(Key(step, s.names[i]), s.bodies[s.names[i]]) == Some(ref) {
      assert s.names[..j][i] == s.names[i];
      assert Key(step, s.names[i]) in cut;
    }
    if Readable(local, cut, ref) {
      var key :| key in cut && Marks(local, key.name) && ReadManifest(key, cut[key]) == Some(ref);
      if key.step == step && key.name in s.names[..j] {
        var i :| 0 <= i < j && s.names[..j][i] == key.name;
        assert s.names[i] == key.name;
      } else {
        assert key in objects && objects[key] == cut[key];
      }
    }
  }

  /** The objects at such a cut: other folders as they were, and in this one the files written so far over leftovers. */
  lemma CutUploadKeys(objects: Objects, step: nat, wipe: seq<Key>, s: Source, k: nat)
    requires forall i :: 0 <= i < |s.names| ==> s.names[i] in s.bodies
    requires (forall i :: 0 <= i < |wipe| ==> wipe[i].step == step) && k <= |wipe| + |s.names|
    ensures var cut := UploadCut(objects, step, wipe, s, k);
            var written := s.names[..FilesBy(wipe, k)];
            && (forall key :: key in objects && key.step != step ==> key in cut)
            && (forall key :: key in cut ==> if key.step == step && key.name in written then cut[key] == s.bodies[key.name]
                                            else key in objects && cut[key] == objects[key])
            && (forall name :: name in written ==> Key(step, name) in cut)
  {
    var ops := WipeOps(wipe) + PutOps(step, s);
    var w := if k < |wipe| then k else |wipe|;
    WipeThins(objects, step, wipe, w);
    if k <= |wipe| {
      assert ops[..k] == WipeOps(wipe)[..k];
      assert s.names[..0] == [];
    } else {
      assert ops[..k] == WipeOps(wipe)[..w] + FileOps(step, s)[..k - |wipe|];
      ReplayConcat(objects, WipeOps(wipe)[..w], FileOps(step, s)[..k - |wipe|]);
      FilesWritten(Replay(objects, WipeOps(wipe)[..w]), step, s, k - |wipe|);
    }
  }

  lemma {:induction false} WipeThins(objects: Objects, step: nat, wipe: seq<Key>, w: nat)
    requires w <= |wipe| && forall i :: 0 <= i < |wipe| ==> wipe[i].step == step
    ensures var cut := Replay(objects, WipeOps(wipe)[..w]);
            && (forall key :: key in objects && key.step != step ==> key in cut)
            && forall key :: key in cut ==> key in objects && cut[key] == objects[key]
  {
    if 0 < w {
      WipeThins(objects, step, wipe, w - 1);
      var ops := WipeOps(wipe);
      assert ops[..w] == ops[..w - 1] + [ops[w - 1]];
      ReplayOne(objects, ops[..w - 1], ops[w - 1]);
    }
  }

  /** An upload of any files, of a step not yet visible, cut off after `k` effects, leaves the newest checkpoint what
      it was if and only if none of the files written so far can be taken for a checkpoint as new. */
  lemma CutUploadHidesIff(local: bool, objects: Objects, step: nat, wipe: seq<Key>, s: Source, k: nat)
    requires (forall i :: 0 <= i < |s.names| ==> s.names[i] in s.bodies) && NotYetVisible(local, objects, step)
    requires forall i :: 0 <= i < |wipe| ==> wipe[i].step == step
    requires k <= |wipe| + |s.names|
    ensures (forall r :: Newest(local, UploadCut(objects, step, wipe, s, k), r) <==> Newest(local, objects, r))
       <==> forall i :: 0 <= i < FilesBy(wipe, k) ==> Outshone(local, objects, s.names[i], s.bodies[s.names[i]])
  {
    hide Marks, UploadCut, Readable, NotYetVisible;
    var cut, j := UploadCut(objects, step, wipe, s, k), FilesBy(wipe, k);
    forall ref
      ensures Readable(local, cut, ref)
         <==> Readable(local, objects, ref)
              || exists i :: 0 <= i < j && Marks(local, s.names[i])
                             && ReadManifest(Key(step, s.names[i]), s.bodies[s.names[i]]) == Some(ref)
    {
      CutUploadShows(local, objects, step, wipe, s, k, ref);
    }
    if forall i :: 0 <= i < j ==> Outshone(local, objects, s.names[i], s.bodies[s.names[i]]) {
      forall r ensures Newest(local, cut, r) <==> Newest(local, objects, r) {
        OutshoneNewest(local, objects, cut, step, s, j, r);
      }
    } else {
      var i :| 0 <= i < j && !Outshone(local, objects, s.names[i], s.bodies[s.names[i]]);
      var ref := ReadManifest(Key(step, s.names[i]), s.bodies[s.names[i]]).value;
      assert Readable(local, cut, ref);
      NotReadable(local, objects, step, ref);
      NewChangesNewest(local, objects, cut, ref);
    }
  }

  lemma NotReadable(local: bool, objects: Objects, step: nat, ref: Ref)
    requires NotYetVisible(local, objects, step) && ref.folder == step
    ensures !Readable(local, objects, ref)
  {
  }

  lemma OutshoneNewest(local: bool, objects: Objects, cut: Objects, step: nat, s: Source, j: nat, r: Option<Ref>)
    requires j <= |s.names| && forall i :: 0 <= i < |s.names| ==> s.names[i] in s.bodies
    requires forall ref :: Readable(local, cut, ref)
               <==> Readable(local, objects, ref)
                    || exists i :: 0 <= i < j && Marks(local, s.names[i])
                                   && ReadManifest(Key(step, s.names[i]), s.bodies[s.names[i]]) == Some(ref)
    requires forall i :: 0 <= i < j ==> Outshone(local, objects, s.names[i], s.bodies[s.names[i]])
    ensures Newest(local, cut, r) <==> Newest(local, objects, r)
  {
    hide Readable, Marks;
    forall ref | Readable(local, cut, ref)
      ensures Readable(local, objects, ref) || exists other :: Readable(local, objects, other) && ref.step < other.step
    {
      if !Readable(local, objects, ref) {
        var i :| 0 <= i < j && Marks(local, s.names[i])
                 && ReadManifest(Key(step, s.names[i]), s.bodies[s.names[i]]) == Some(ref);
        assert Outshone(local, objects, s.names[i], s.bodies[s.names[i]]);
      }
    }
  }

  /** Something visible that was not there, with nothing there newer than it, changes what is newest. */
  lemma NewChangesNewest(local: bool, objects: Objects, cut: Objects, ref: Ref)
    requires Readable(local, cut, ref) && !Readable(local, objects, ref)
    requires forall other :: Readable(local, objects, other) ==> other.step <= ref.step
    ensures !(forall r :: Newest(local, cut, r) <==> Newest(local, objects, r))
  {
    hide Readable;
    var best := SomeNewest(local, cut, ref);
    if Newest(local, objects, Some(best)) {
      assert Readable(local, cut, best) && best.step == ref.step;
      assert Newest(local, cut, Some(ref)) && !Newest(local, objects, Some(ref));
    }
  }

  lemma LookalikeMarks()
    ensures Marks(false, "x-MANIFEST.json") && DirOf("x-MANIFEST.json") == []
  {
    assert "x-MANIFEST.json"[2..] == MANIFEST;
    assert '/' !in "x-MANIFEST.json";
  }

  /** The smallest case: in an empty bucket, a file named like a manifest is a checkpoint before the next file of
      the same upload is there. */
  lemma LookalikeIsVisibleEarly()
    ensures var s := Source(["x-MANIFEST.json", "z"], map["x-MANIFEST.json" := Manifest(9, []), "z" := Raw([])]);
            var cut := Replay(map[], PutOps(3, s)[..1]);
            Newest(false, cut, Some(Ref(3, [], 9, [])))
  {
    hide Marks, DirOf;
    var s := Source(["x-MANIFEST.json", "z"], map["x-MANIFEST.json" := Manifest(9, []), "z" := Raw([])]);
    var cut := Replay(map[], PutOps(3, s)[..1]);
    assert PutOps(3, s)[..1] == [] + [PutOps(3, s)[0]];
    ReplayOne(map[], [], PutOps(3, s)[0]);
    var key := Key(3, "x-MANIFEST.json");
    assert cut == map[key := Manifest(9, [])];
    LookalikeMarks();
    assert ReadManifest(key, cut[key]) == Some(Ref(3, [], 9, []));
  }

  // --------------------------------------------------------------------- pruning

  /** A number in decimal, padded with zeros to `w` digits. */
  function Digits(n: nat, w: nat): (ds: seq<nat>)
    ensures |ds| == w
  {
    if w == 0 then [] else Digits(n / 10, w - 1) + [n % 10]
  }

  /** How many digits a number has. */
  function Width(n: nat): nat {
    if n < 10 then 1 else 1 + Width(n / 10)
  }

  /** How many digits a step's name has. */
  function NameWidth(n: nat): nat {
    if Width(n) < 12 then 12 else Width(n)
  }

  /** The part of `step-NNNNNNNNNNNN` that differs: at least twelve digits. */
  function StepName(n: nat): seq<nat> {
    Digits(n, NameWidth(n))
  }

  /** The order strings sort in. */
  predicate Sorts(a: seq<nat>, b: seq<nat>) {
    if a == [] then b != []
    else if b == [] then false
    else a[0] < b[0] || (a[0] == b[0] && Sorts(a[1..], b[1..]))
  }

  function Power(w: nat): (p: nat)
    ensures 1 <= p
  {
    if w == 0 then 1 else 10 * Power(w - 1)
  }

  lemma {:induction false} SortsByPrefix(a: seq<nat>, b: seq<nat>, x: nat, y: nat)
    requires |a| == |b|
    ensures Sorts(a + [x], b + [y]) <==> Sorts(a, b) || (a == b && x < y)
  {
    if a == [] {
      assert a + [x] == [x] && b + [y] == [y];
    } else {
      assert (a + [x])[1..] == a[1..] + [x] && (b + [y])[1..] == b[1..] + [y];
      assert a == b <==> a[0] == b[0] && a[1..] == b[1..];
      SortsByPrefix(a[1..], b[1..], x, y);
    }
  }

  /** Padded to one width, numbers sort as strings exactly as they sort as numbers. */
  lemma {:induction false} PaddedSorts(m: nat, n: nat, w: nat)
    requires m < Power(w) && n < Power(w)
    ensures Sorts(Digits(m, w), Digits(n, w)) <==> m < n
    ensures Digits(m, w) == Digits(n, w) <==> m == n
  {
    if 0 < w {
      PaddedSorts(m / 10, n / 10, w - 1);
      SortsByPrefix(Digits(m / 10, w - 1), Digits(n / 10, w - 1), m % 10, n % 10);
      assert Digits(m, w)[..w - 1] == Digits(m / 10, w - 1) && Digits(n, w)[..w - 1] == Digits(n / 10, w - 1);
      assert Digits(m, w)[w - 1] == m % 10 && Digits(n, w)[w - 1] == n % 10;
    }
  }

  lemma {:induction false} WidthBound(n: nat, w: nat)
    requires n < Power(w) && 0 < w
    ensures Width(n) <= w
  {
    if 10 <= n {
      assert 1 < w;
      WidthBound(n / 10, w - 1);
    }
  }

  const TRILLION: nat := 1_000_000_000_000

  lemma TwelveDigits()
    ensures Power(12) == TRILLION
  {
    assert Power(3) == 1000 by {
      assert Power(1) == 10 && Power(2) == 100;
    }
    assert Power(6) == 1_000_000 by {
      assert Power(4) == 10_000 && Power(5) == 100_000;
    }
    assert Power(9) == 1_000_000_000 by {
      assert Power(7) == 10_000_000 && Power(8) == 100_000_000;
    }
    assert Power(10) == 10_000_000_000 && Power(11) == 100_000_000_000;
  }

  /** Folder names sort in step order as long as every step is below 10^12. */
  lemma NamesSortLikeSteps(m: nat, n: nat)
    requires m < TRILLION && n < TRILLION
    ensures Sorts(StepName(m), StepName(n)) <==> m < n
  {
    TwelveDigits();
    WidthBound(m, 12);
    WidthBound(n, 12);
    PaddedSorts(m, n, 12);
  }

  lemma {:induction false} WidthOfPower(w: nat)
    ensures Width(Power(w)) == w + 1
  {
    if 0 < w {
      WidthOfPower(w - 1);
      assert 10 * Power(w - 1) / 10 == Power(w - 1);
    }
  }

  lemma {:induction false} SortsTotally(a: seq<nat>, b: seq<nat>)
    ensures Sorts(a, b) || a == b || Sorts(b, a)
    ensures !(Sorts(a, b) && Sorts(b, a)) && !Sorts(a, a)
  {
    if a != [] && b != [] {
      SortsTotally(a[1..], b[1..]);
      assert a == [a[0]] + a[1..] && b == [b[0]] + b[1..];
    }
    if a != [] {
      SortsTotally(a[1..], a[1..]);
    }
  }

  lemma {:induction false} SortsChain(a: seq<nat>, b: seq<nat>, c: seq<nat>)
    requires Sorts(a, b) && Sorts(b, c)
    ensures Sorts(a, c)
  {
    if a != [] && a[0] == b[0] && b[0] == c[0] {
      SortsChain(a[1..], b[1..], c[1..]);
    }
  }

  lemma {:induction false} WithinWidth(n: nat)
    ensures n < Power(Width(n))
  {
    if 10 <= n {
      WithinWidth(n / 10);
    }
  }

  lemma {:induction false} PowerGrows(v: nat, w: nat)
    requires v <= w
    ensures Power(v) <= Power(w)
  {
    if v < w {
      PowerGrows(v, w - 1);
    }
  }

  /** Two steps never share a folder. */
  lemma NamesDiffer(m: nat, n: nat)
    requires m != n
    ensures StepName(m) != StepName(n)
  {
    if |StepName(m)| == |StepName(n)| {
      var w := |StepName(m)|;
      WithinWidth(m);
      WithinWidth(n);
      PowerGrows(Width(m), w);
      PowerGrows(Width(n), w);
      PaddedSorts(m, n, w);
    }
  }

  lemma {:induction false} WidthMonotone(m: nat, n: nat)
    requires m <= n
    ensures Width(m) <= Width(n)
  {
    if 10 <= m {
      WidthMonotone(m / 10, n / 10);
    }
  }

  /** A number without its last `d` digits. */
  function Leading(n: nat, d: nat): nat {
    if d == 0 then n else Leading(n / 10, d - 1)
  }

  /** Dropping the last digits of a number's name drops them from the number. */
  lemma {:induction false} DigitsPrefix(n: nat, w: nat, d: nat)
    ensures Digits(n, w + d)[..w] == Digits(Leading(n, d), w)
  {
    if d == 0 {
      assert Digits(n, w)[..w] == Digits(n, w);
    } else {
      DigitsPrefix(n / 10, w, d - 1);
      assert Digits(n, w + d) == Digits(n / 10, w + d - 1) + [n % 10];
    }
  }

  /** A string sorts before a longer one when it sorts before, or is, its beginning. */
  lemma {:induction false} SortsLonger(a: seq<nat>, b: seq<nat>)
    requires |a| <= |b|
    ensures Sorts(a, b) <==> Sorts(a, b[..|a|]) || (a == b[..|a|] && |a| < |b|)
  {
    if a == [] {
      assert b[..0] == [];
    } else {
      SortsLonger(a[1..], b[1..]);
      assert b[..|a|][0] == b[0] && b[..|a|][1..] == b[1..][..|a| - 1];
      assert a == [a[0]] + a[1..] && b[..|a|] == [b[0]] + b[1..][..|a| - 1];
    }
  }

  lemma {:induction false} QuotientBelow(n: nat, w: nat, d: nat)
    requires n < Power(w + d)
    ensures Leading(n, d) < Power(w)
  {
    if 0 < d {
      QuotientBelow(n / 10, w, d - 1);
    }
  }

  /** Exactly when two folder names sort in the order of their steps: when the smaller step is at most what the
      larger one's name begins with, read at the smaller one's width. Names of one width always do. */
  lemma NamesSortIff(m: nat, n: nat)
    requires m < n
    ensures NameWidth(m) <= NameWidth(n)
    ensures Sorts(StepName(m), StepName(n)) <==> m <= Leading(n, NameWidth(n) - NameWidth(m))
    ensures !Sorts(StepName(m), StepName(n)) <==> Condemned({m, n}, 1, {n})
  {
    hide Sorts, Digits, Width, Power, Condemned;
    WidthMonotone(m, n);
    var w, d := NameWidth(m), NameWidth(n) - NameWidth(m);
    FitsItsName(m);
    FitsItsName(n);
    QuotientBelow(n, w, d);
    DigitsPrefix(n, w, d);
    SortsLonger(StepName(m), StepName(n));
    PaddedSorts(m, Leading(n, d), w);
    OneMustGo(m, n);
  }

  lemma FitsItsName(n: nat)
    ensures n < Power(NameWidth(n))
  {
    WithinWidth(n);
    PowerGrows(Width(n), NameWidth(n));
  }

  /** Of two folders, keeping one, the one whose name sorts first goes. */
  lemma OneMustGo(m: nat, n: nat)
    requires m != n
    ensures !Sorts(StepName(m), StepName(n)) <==> Condemned({m, n}, 1, {n})
  {
    hide Sorts, StepName;
    SortsTotally(StepName(m), StepName(n));
    NamesDiffer(m, n);
    assert {m, n} - {n} == {m};
  }

  /** The first step to break the order: of 10^12 - 1 and 10^12, pruning to one keeps the older. */
  lemma ThirteenDigitsSortFirst()
    ensures Condemned({TRILLION - 1, TRILLION}, 1, {TRILLION})
  {
    hide StepName, Sorts;
    TwelveDigits();
    WidthBound(TRILLION - 1, 12);
    WidthOfPower(12);
    assert NameWidth(TRILLION) == 13 && NameWidth(TRILLION - 1) == 12;
    assert Power(1) == 10;
    NamesSortIff(TRILLION - 1, TRILLION);
  }

  /** The folders `prune` counts as complete. */
  function Folders(local: bool, objects: Objects): set<nat> {
    set key | key in objects && Marks(local, key.name) :: key.step
  }

  /** Which folders go: all but the `keep` whose names sort last. */
  ghost predicate Condemned(folders: set<nat>, keep: nat, doomed: set<nat>) {
    && doomed <= folders
    && |folders - doomed| == (if |folders| < keep then |folders| else keep)
    && forall d, k :: d in doomed && k in folders - doomed ==> Sorts(StepName(d), StepName(k))
  }

  /** Every manifest parses, sits where manifests are put, and names the step it sits under. */
  ghost predicate Healthy(local: bool, objects: Objects) {
    forall key :: key in objects && Marks(local, key.name) ==>
      key.name == MANIFEST && objects[key].Manifest? && objects[key].step == key.step
  }

  ghost predicate SmallSteps(objects: Objects) {
    forall key :: key in objects ==> key.step < TRILLION
  }

  /** What a deletion of folders, cut anywhere, may have done: some keys of those folders are gone. */
  ghost predicate Thinned(a: Objects, b: Objects, doomed: set<nat>) {
    && (forall key :: key in b ==> key in a && b[key] == a[key])
    && (forall key :: key in a && key.step !in doomed ==> key in b)
  }

  predicate Deletes(op: Op, doomed: set<nat>) {
    op.DeleteObject? && op.key.step in doomed
  }

  lemma {:induction false} DeletionsThin(objects: Objects, ops: seq<Op>, doomed: set<nat>)
    requires forall i :: 0 <= i < |ops| ==> Deletes(ops[i], doomed)
    ensures Thinned(objects, Replay(objects, ops), doomed)
  {
    if ops != [] {
      DeletionsThin(objects, ops[..|ops| - 1], doomed);
      assert Deletes(ops[|ops| - 1], doomed);
    }
  }

  lemma SomethingIsKept(folders: set<nat>, keep: nat, doomed: set<nat>) returns (k: nat)
    requires Condemned(folders, keep, doomed) && 1 <= keep && folders != {}
    ensures k in folders && k !in doomed
  {
    assert |folders| != 0;
    assert folders - doomed != {};
    k :| k in folders - doomed;
  }

  lemma HealthyRef(local: bool, objects: Objects, ref: Ref)
    requires Healthy(local, objects) && SmallSteps(objects) && Readable(local, objects, ref)
    ensures ref.step == ref.folder && ref.dir == [] && ref.folder in Folders(local, objects) && ref.step < TRILLION
  {
    var key :| key in objects && Marks(local, key.name) && ReadManifest(key, objects[key]) == Some(ref);
    ManifestName(local);
  }

  lemma HealthyFolder(local: bool, objects: Objects, k: nat) returns (ref: Ref)
    requires Healthy(local, objects) && SmallSteps(objects) && k in Folders(local, objects)
    ensures Readable(local, objects, ref) && ref.step == k && k < TRILLION
  {
    var key :| key in objects && Marks(local, key.name) && key.step == k;
    ref := ReadManifest(key, objects[key]).value;
  }

  /** The newest checkpoint is never condemned. */
  lemma NewestIsKept(local: bool, objects: Objects, keep: nat, doomed: set<nat>, best: Ref)
    requires Healthy(local, objects) && SmallSteps(objects) && 1 <= keep
    requires Condemned(Folders(local, objects), keep, doomed) && Newest(local, objects, Some(best))
    ensures best.folder !in doomed && best.step == best.folder && best.dir == []
  {
    hide Folders, Readable, Healthy, SmallSteps, StepName, Sorts;
    HealthyRef(local, objects, best);
    var k := SomethingIsKept(Folders(local, objects), keep, doomed);
    var other := HealthyFolder(local, objects, k);
    NamesSortLikeSteps(best.folder, k);
  }

  /** `prune(keep >= 1)`, cut after any number of its deletions, neither changes nor breaks the newest checkpoint. */
  lemma CutPruneIsSafe(local: bool, objects: Objects, keep: nat, doomed: set<nat>, ops: seq<Op>, k: nat)
    requires Healthy(local, objects) && SmallSteps(objects) && 1 <= keep
    requires Condemned(Folders(local, objects), keep, doomed)
    requires (forall i :: 0 <= i < |ops| ==> Deletes(ops[i], doomed)) && k <= |ops|
    ensures var cut := Replay(objects, ops[..k]);
            && Healthy(local, cut)
            && (forall r :: Newest(local, cut, r) <==> Newest(local, objects, r))
            && forall best :: Newest(local, objects, Some(best)) ==>
                 Restored(cut, best, |best.files|) == Restored(objects, best, |best.files|)
  {
    var cut := Replay(objects, ops[..k]);
    DeletionsThin(objects, ops[..k], doomed);
    forall best | Newest(local, objects, Some(best))
      ensures best.folder !in doomed && Restored(cut, best, |best.files|) == Restored(objects, best, |best.files|)
    {
      NewestIsKept(local, objects, keep, doomed, best);
      SameRestored(objects, cut, best, |best.files|);
    }
    forall r ensures Newest(local, cut, r) <==> Newest(local, objects, r) {
      ThinnedNewest(local, objects, cut, doomed, r);
    }
  }

  /** The folders whose names sort after this one's. */
  ghost function Later(folders: set<nat>, f: nat): set<nat> {
    set g | g in folders && Sorts(StepName(f), StepName(g))
  }

  /** A folder survives a prune exactly when fewer than `keep` names sort after its own. */
  lemma SurvivesIff(folders: set<nat>, keep: nat, doomed: set<nat>, f: nat)
    requires Condemned(folders, keep, doomed) && f in folders
    ensures f !in doomed <==> |Later(folders, f)| < keep
  {
    hide StepName, Sorts;
    var kept := folders - doomed;
    if f in doomed {
      assert kept <= Later(folders, f);
      Counting.SubsetSize(kept, Later(folders, f));
      if |folders| < keep {
        Counting.SubsetSize(kept, folders - {f});
      }
    } else {
      forall g | g in Later(folders, f) ensures g in kept - {f} {
        assert g in doomed ==> Sorts(StepName(g), StepName(f));
        SortsTotally(StepName(f), StepName(g));
      }
      Counting.SubsetSize(Later(folders, f), kept - {f});
    }
  }

  /** Whatever is in the store, manifests that do not parse included: a prune keeps the newest checkpoint newest and
      as restorable as it was at every cut, if and only if fewer than `keep` folder names sort after its own. */
  lemma PruneKeepsNewestIff(local: bool, objects: Objects, keep: nat, doomed: set<nat>, ops: seq<Op>, best: Ref)
    requires Condemned(Folders(local, objects), keep, doomed) && Newest(local, objects, Some(best))
    requires forall i :: 0 <= i < |ops| ==> Deletes(ops[i], doomed)
    requires forall key :: key in Replay(objects, ops) ==> key.step !in doomed
    ensures (forall k :: 0 <= k <= |ops| ==>
               && Newest(local, Replay(objects, ops[..k]), Some(best))
               && Restored(Replay(objects, ops[..k]), best, |best.files|) == Restored(objects, best, |best.files|))
       <==> |Later(Folders(local, objects), best.folder)| < keep
  {
    hide StepName, Sorts, Replay, Condemned, Marks;
    var key :| key in objects && Marks(local, key.name) && ReadManifest(key, objects[key]) == Some(best);
    assert best.folder in Folders(local, objects);
    SurvivesIff(Folders(local, objects), keep, doomed, best.folder);
    if best.folder !in doomed {
      forall k | 0 <= k <= |ops|
        ensures Newest(local, Replay(objects, ops[..k]), Some(best))
             && Restored(Replay(objects, ops[..k]), best, |best.files|) == Restored(objects, best, |best.files|)
      {
        DeletionsThin(objects, ops[..k], doomed);
        ThinnedKeeps(local, objects, Replay(objects, ops[..k]), doomed, best);
        SameRestored(objects, Replay(objects, ops[..k]), best, |best.files|);
      }
    } else {
      assert ops[..|ops|] == ops;
      assert !Readable(local, Replay(objects, ops), best);
      assert !Newest(local, Replay(objects, ops[..|ops|]), Some(best));
    }
  }

  lemma ThinnedKeeps(local: bool, a: Objects, b: Objects, doomed: set<nat>, best: Ref)
    requires Thinned(a, b, doomed) && Newest(local, a, Some(best)) && best.folder !in doomed
    ensures Newest(local, b, Some(best))
  {
    hide Marks;
    var key :| key in a && Marks(local, key.name) && ReadManifest(key, a[key]) == Some(best);
    assert key in b && ReadManifest(key, b[key]) == Some(best);
    forall ref | Readable(local, b, ref) ensures Readable(local, a, ref) {
      var k :| k in b && Marks(local, k.name) && ReadManifest(k, b[k]) == Some(ref);
      assert k in a && ReadManifest(k, a[k]) == Some(ref);
    }
  }

  lemma ThinnedNewest(local: bool, a: Objects, b: Objects, doomed: set<nat>, r: Option<Ref>)
    requires Thinned(a, b, doomed)
    requires forall best :: Newest(local, a, Some(best)) ==> best.folder !in doomed
    ensures Newest(local, b, r) <==> Newest(local, a, r)
  {
    forall ref | Readable(local, b, ref) ensures Readable(local, a, ref) {
      var key :| key in b && Marks(local, key.name) && ReadManifest(key, b[key]) == Some(ref);
      assert key in a && ReadManifest(key, a[key]) == Some(ref);
    }
    forall ref | Readable(local, a, ref) && ref.folder !in doomed ensures Readable(local, b, ref) {
      var key :| key in a && Marks(local, key.name) && ReadManifest(key, a[key]) == Some(ref);
      assert key in b && ReadManifest(key, b[key]) == Some(ref);
    }
    if ref :| Readable(local, a, ref) {
      var best := SomeNewest(local, a, ref);
      assert Readable(local, b, best);
    }
  }

  /** Where there is a checkpoint there is a newest one. */
  lemma SomeNewest(local: bool, objects: Objects, ref: Ref) returns (best: Ref)
    requires Readable(local, objects, ref)
    ensures Newest(local, objects, Some(best))
  {
    best := Latest(local, objects, objects.Keys, ref);
  }

  lemma {:induction false} Latest(local: bool, objects: Objects, rest: set<Key>, ref: Ref) returns (best: Ref)
    requires Readable(local, objects, ref) && rest <= objects.Keys
    requires forall other, key ::
               (key in objects.Keys - rest && Marks(local, key.name) && ReadManifest(key, objects[key]) == Some(other)) ==>
               other.step <= ref.step
    ensures Newest(local, objects, Some(best))
    decreases rest
  {
    if rest == {} {
      best := ref;
    } else {
      var key :| key in rest;
      var read := ReadManifest(key, objects[key]);
      var next := if Marks(local, key.name) && read.Some? && ref.step < read.value.step then read.value else ref;
      best := Latest(local, objects, rest - {key}, next);
    }
  }

  lemma FilesAreQuiet(local: bool, step: nat, s: Source, n: nat)
    requires Proper(local, s) && n <= |s.names|
    ensures forall i :: 0 <= i < n ==> Quiet(local, step, PutOps(step, s)[..n][i])
  {
    forall i | 0 <= i < n ensures Quiet(local, step, PutOps(step, s)[..n][i]) {
      assert PutOps(step, s)[..n][i] == FileOps(step, s)[i];
    }
  }

  /** Uploads keep manifests healthy, wherever they are cut. */
  lemma UploadStaysHealthy(local: bool, objects: Objects, step: nat, s: Source, k: nat)
    requires Proper(local, s) && Healthy(local, objects) && k <= |s.names| + 1
    ensures Healthy(local, Replay(objects, PutOps(step, s)[..k]))
  {
    hide EndsWith, Replay, Quiet;
    var ops := PutOps(step, s);
    var n := if k <= |s.names| then k else |s.names|;
    FilesAreQuiet(local, step, s, n);
    QuietOps(local, objects, step, ops[..n]);
    if n < k {
      assert ops[..k] == ops[..n] + [ManifestOp(step, s)];
      ReplayOne(objects, ops[..n], ManifestOp(step, s));
    }
  }

  lemma OneParsesNewest(local: bool, objects: Objects, key: Key, ref: Ref)
    requires key in objects && Marks(local, key.name) && ReadManifest(key, objects[key]) == Some(ref)
    requires forall other :: other in objects && other != key ==> objects[other].Raw?
    ensures Newest(local, objects, Some(ref))
  {
    hide Marks;
  }

  lemma NothingParses(local: bool, objects: Objects)
    requires forall key :: key in objects ==> objects[key].Raw?
    ensures Newest(local, objects, None)
  {
    hide Marks;
  }

  lemma OlderGoes(m: nat, n: nat)
    requires m < n < TRILLION
    ensures Condemned({m, n}, 1, {m})
  {
    hide StepName, Sorts;
    assert {m, n} - {m} == {n};
    NamesSortLikeSteps(m, n);
  }

  lemma LoneDeletion(objects: Objects, key: Key)
    ensures Replay(objects, [DeleteObject(key)]) == objects - {key}
  {
    assert [DeleteObject(key)] == [] + [DeleteObject(key)];
    ReplayOne(objects, [], DeleteObject(key));
  }

  /** Why health matters: `prune` counts a folder whose manifest does not parse, and keeping that one
      it deletes the only checkpoint there is. */
  lemma CorruptManifestLosesAll()
    ensures var objects := map[Key(1, MANIFEST) := Manifest(1, []), Key(2, MANIFEST) := Raw([])];
            && Newest(true, objects, Some(Ref(1, [], 1, [])))
            && Condemned(Folders(true, objects), 1, {1})
            && Newest(true, Replay(objects, [DeleteObject(Key(1, MANIFEST))]), None)
  {
    hide DirOf, Condemned, Newest, Replay;
    var first, second := Key(1, MANIFEST), Key(2, MANIFEST);
    var objects := map[first := Manifest(1, []), second := Raw([])];
    ManifestName(true);
    OneParsesNewest(true, objects, first, Ref(1, [], 1, []));
    assert first in objects && second in objects;
    assert Folders(true, objects) == {1, 2};
    OlderGoes(1, 2);
    LoneDeletion(objects, first);
    NothingParses(true, objects - {first});
  }

  // ------------------------------------------------------------------- the store

  /** Both stores. On disk (`local`) a put clears its own folder first; a bucket never deletes on put. */
  class CheckpointStore {
    const local: bool
    var objects: Objects
    /** Every durable change ever made, in order: a crash leaves the objects of some prefix. */
    ghost var ops: seq<Op>

    ghost predicate Valid()
      reads this
    {
      objects == Replay(map[], ops)
    }

    constructor (local: bool)
      ensures Valid() && objects == map[] && this.local == local
    {
      this.local, objects, ops := local, map[], [];
    }

    method PutOne(key: Key, body: Body)
      requires Valid()
      modifies this
      ensures Valid() && ops == old(ops) + [PutObject(key, body)] && objects == old(objects)[key := body]
    {
      ReplayOne(map[], ops, PutObject(key, body));
      objects := objects[key := body];
      ops := ops + [PutObject(key, body)];
    }

    method DeleteOne(key: Key)
      requires Valid()
      modifies this
      ensures Valid() && ops == old(ops) + [DeleteObject(key)] && objects == old(objects) - {key}
    {
      ReplayOne(map[], ops, DeleteObject(key));
      objects := objects - {key};
      ops := ops + [DeleteObject(key)];
    }

    /** `rmtree` of one folder: key by key, in whatever order. */
    method DeleteFolder(step: nat) returns (ghost keys: seq<Key>)
      requires Valid()
      modifies this
      ensures Valid() && ops == old(ops) + WipeOps(keys)
      ensures forall i :: 0 <= i < |keys| ==> keys[i].step == step && keys[i] in old(objects)
      ensures forall key :: key in old(objects) && key.step == step ==> key in keys
      ensures forall key :: key in objects <==> key in old(objects) && key.step != step
      ensures forall key :: key in objects ==> objects[key] == old(objects)[key]
    {
      keys := [];
      var rest := set key | key in objects && key.step == step;
      while rest != {}
        invariant Valid() && ops == old(ops) + WipeOps(keys)
        invariant forall i :: 0 <= i < |keys| ==> keys[i].step == step && keys[i] in old(objects)
        invariant forall key :: key in rest ==> key in objects && key.step == step
        invariant forall key :: key in old(objects) && key.step == step ==> key in rest || key in keys
        invariant forall key :: key in objects <==> key in old(objects) && (key.step != step || key in rest)
        invariant forall key :: key in objects ==> objects[key] == old(objects)[key]
        decreases |rest|
      {
        var key :| key in rest;
        rest := rest - {key};
        DeleteOne(key);
        keys := keys + [key];
      }
    }

    /** `put`: the leftovers go (on disk), the files are copied, and only then the manifest. */
    method Put(step: nat, s: Source) returns (ref: Ref, ghost wipe: seq<Key>)
      requires Valid() && forall i :: 0 <= i < |s.names| ==> s.names[i] in s.bodies
      modifies this
      ensures Valid() && ref == RefOf(step, s)
      ensures ops == old(ops) + (WipeOps(wipe) + PutOps(step, s))
      ensures forall i :: 0 <= i < |wipe| ==> wipe[i].step == step && wipe[i] in old(objects)
      ensures !local ==> wipe == []
      ensures local ==> forall key :: key in old(objects) && key.step == step ==> key in wipe
    {
      wipe := [];
      if local {
        wipe := DeleteFolder(step);
      }
      ghost var wiped := ops;
      assert ops == old(ops) + WipeOps(wipe);
      for i := 0 to |s.names|
        invariant Valid() && ops == wiped + FileOps(step, s)[..i]
      {
        PutOne(Key(step, s.names[i]), s.bodies[s.names[i]]);
        assert FileOps(step, s)[..i + 1] == FileOps(step, s)[..i] + [FileOps(step, s)[i]];
      }
      assert FileOps(step, s)[..|s.names|] == FileOps(step, s);
      PutOne(Key(step, MANIFEST), Manifest(step, s.names));
      ref := RefOf(step, s);
    }

    /** `latest`: whatever order the manifests are listed in, a newest complete one. */
    method LatestRef() returns (best: Option<Ref>)
      ensures Newest(local, objects, best)
    {
      best := None;
      var rest := objects.Keys;
      while rest != {}
        invariant rest <= objects.Keys
        invariant best.Some? ==> Readable(local, objects, best.value)
        invariant forall key, ref ::
                    (key in objects.Keys - rest && Marks(local, key.name) && ReadManifest(key, objects[key]) == Some(ref)) ==>
                    best.Some? && ref.step <= best.value.step
        decreases |rest|
      {
        var key :| key in rest;
        rest := rest - {key};
        if Marks(local, key.name) {
          var ref := ReadManifest(key, objects[key]);
          if ref.Some? && (best.None? || best.value.step < ref.value.step) {
            best := ref;
          }
        }
      }
    }

    /** `fetch`. On disk a folder without a manifest is refused outright. */
    method Fetch(ref: Ref) returns (r: Result<map<Name, Body>, Error>)
      ensures r == if local && FileKey(ref, MANIFEST) !in objects then Err(MissingManifest)
                   else Restored(objects, ref, |ref.files|)
    {
      if local && FileKey(ref, MANIFEST) !in objects {
        return Err(MissingManifest);
      }
      var files: map<Name, Body> := map[];
      for i := 0 to |ref.files|
        invariant Restored(objects, ref, i) == Ok(files)
      {
        var key := FileKey(ref, ref.files[i]);
        if key !in objects {
          RestoreStops(objects, ref, i + 1, |ref.files|);
          return Err(MissingFile(ref.files[i]));
        }
        files := files[ref.files[i] := objects[key]];
      }
      return Ok(files);
    }

    /** The folder whose name sorts first. */
    method FirstByName(folders: set<nat>) returns (first: nat)
      requires folders != {}
      ensures first in folders && forall s :: s in folders ==> s == first || Sorts(StepName(first), StepName(s))
    {
      first :| first in folders;
      var rest := folders - {first};
      while rest != {}
        invariant rest <= folders && first in folders
        invariant forall s :: s in folders - rest ==> s == first || Sorts(StepName(first), StepName(s))
        decreases |rest|
      {
        var s :| s in rest;
        rest := rest - {s};
        ghost var before := first;
        SortsTotally(StepName(first), StepName(s));
        if s != first {
          NamesDiffer(s, first);
        }
        if Sorts(StepName(s), StepName(first)) {
          first := s;
          forall t | t in folders - rest ensures t == s || Sorts(StepName(s), StepName(t)) {
            if t != s && t != before {
              SortsChain(StepName(s), StepName(before), StepName(t));
            }
          }
        }
      }
    }

    /** `prune`: the folders go in name order until `keep` are left. */
    method Prune(keep: nat) returns (removed: nat, ghost doomed: set<nat>)
      requires Valid()
      modifies this
      ensures Valid() && Condemned(Folders(local, old(objects)), keep, doomed) && removed == |doomed|
      ensures old(ops) <= ops && AllDelete(ops, |old(ops)|, doomed)
      ensures forall key :: key in objects <==> key in old(objects) && key.step !in doomed
    {
      hide StepName, Sorts, Replay, Folders, Split, Deletes;
      assert Split(Folders(local, objects), Folders(local, objects), {}) by {
        NothingGone(Folders(local, objects));
      }
      var rest := Folders(local, objects);
      ghost var folders := rest;
      removed, doomed := 0, {};
      while keep < |rest|
        invariant Valid() && removed == |doomed| && Split(folders, rest, doomed) && (keep <= |rest| || doomed == {})
        invariant old(ops) <= ops && AllDelete(ops, |old(ops)|, doomed)
        invariant forall key :: key in objects <==> key in old(objects) && key.step !in doomed
        decreases |rest|
      {
        var s := FirstByName(rest);
        OneMoreGone(folders, rest, doomed, s);
        DeletesMore(ops, |old(ops)|, doomed, doomed + {s});
        ghost var before := ops;
        ghost var keys := DeleteFolder(s);
        WipeDeletes(before, keys, s, doomed + {s}, |old(ops)|);
        rest := rest - {s};
        removed, doomed := removed + 1, doomed + {s};
      }
      CondemnedWhenDone(folders, rest, keep, doomed);
    }
  }

  /** Every change from the `n`th on deletes from one of these folders. */
  ghost predicate AllDelete(ops: seq<Op>, n: nat, doomed: set<nat>) {
    forall i :: n <= i < |ops| ==> Deletes(ops[i], doomed)
  }

  lemma DeletesMore(ops: seq<Op>, n: nat, doomed: set<nat>, more: set<nat>)
    requires AllDelete(ops, n, doomed) && doomed <= more
    ensures AllDelete(ops, n, more)
  {
  }

  lemma WipeDeletes(before: seq<Op>, keys: seq<Key>, step: nat, doomed: set<nat>, n: nat)
    requires AllDelete(before, n, doomed) && step in doomed
    requires forall i :: 0 <= i < |keys| ==> keys[i].step == step
    ensures AllDelete(before + WipeOps(keys), n, doomed)
  {
  }

  lemma NothingGone(folders: set<nat>)
    ensures Split(folders, folders, {})
  {
    assert folders - {} == folders;
  }

  lemma CondemnedWhenDone(folders: set<nat>, rest: set<nat>, keep: nat, doomed: set<nat>)
    requires Split(folders, rest, doomed) && |rest| <= keep && (keep <= |rest| || doomed == {})
    ensures Condemned(folders, keep, doomed)
  {
    hide StepName, Sorts;
  }

  /** The folders still there all sort after those that went. */
  ghost predicate Split(folders: set<nat>, rest: set<nat>, doomed: set<nat>) {
    && rest == folders - doomed && doomed <= folders
    && forall d, k :: d in doomed && k in rest ==> Sorts(StepName(d), StepName(k))
  }

  lemma OneMoreGone(folders: set<nat>, rest: set<nat>, doomed: set<nat>, s: nat)
    requires Split(folders, rest, doomed) && s in rest
    requires forall t :: t in rest ==> t == s || Sorts(StepName(s), StepName(t))
    ensures Split(folders, rest - {s}, doomed + {s})
    ensures s !in doomed && |rest - {s}| == |rest| - 1 && |doomed + {s}| == |doomed| + 1
  {
    hide StepName, Sorts;
  }

  lemma {:induction false} RestoreStops(objects: Objects, ref: Ref, i: nat, n: nat)
    requires i <= n <= |ref.files| && Restored(objects, ref, i).Err?
    ensures Restored(objects, ref, n) == Restored(objects, ref, i)
  {
    if i < n {
      RestoreStops(objects, ref, i, n - 1);
    }
  }
}
