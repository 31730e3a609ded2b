/** Grouping of a bucket listing into folders and the per-folder sample
    (sample_s3_data_by_folder). The listing and random.sample are inputs:
    the listing is a sequence of objects, and random.sample is a picker that
    returns k objects drawn at distinct positions of the population. */
module S3Sampling {
  import opened Common
  import Paths

  /** One entry of the bucket listing. */
  datatype S3Object = S3Object(key: string, size: int)

  /** Keys ending in '/' are folder placeholders and are never scanned. */
  predicate IsFolderMarker(key: string)
  {
    EndsWith(key, "/")
  }

  /** The listing loop's root test. Its second disjunct only holds for keys
      ending in '/', which the loop has already skipped. */
  predicate IsRootKey(key: string)
  {
    '/' !in key || (Count(key, '/') == 1 && EndsWith(key, "/"))
  }

  /** The group an object is filed under: "/" for root objects, otherwise the
      key up to and including its last '/'. */
  function GroupKey(key: string): string
  {
    if IsRootKey(key) then "/" else Paths.Dir(key)
  }

  /** A dictionary from folder to objects, in insertion order, as a Python
      dict iterates it. */
  datatype Folders = Folders(order: seq<string>, groups: map<string, seq<S3Object>>)
  {
    /** The insertion order lists every key exactly once. */
    ghost predicate Valid()
    {
      && (forall i, j :: 0 <= i < j < |order| ==> order[i] != order[j])
      && (forall f :: f in groups <==> f in order)
    }

    /** folders[f].append(o) on a defaultdict(list). */
    function Append(f: string, o: S3Object): (r: Folders)
      ensures Valid() ==> r.Valid()
      ensures r.groups.Keys == groups.Keys + {f}
    {
      if f in groups then Folders(order, groups[f := groups[f] + [o]])
      else Folders(order + [f], groups[f := [o]])
    }

    /** folders[f] = objs: a new key goes last, an existing key keeps its place. */
    function Put(f: string, objs: seq<S3Object>): (r: Folders)
      ensures Valid() ==> r.Valid()
      ensures r.groups.Keys == groups.Keys + {f}
    {
      Folders(if f in groups then order else order + [f], groups[f := objs])
    }
  }

  /** The state after the listing loop has seen `objects`: the folder
      dictionary and the list of root objects. */
  function Collect(objects: seq<S3Object>): (Folders, seq<S3Object>)
  {
    if objects == [] then (Folders([], map[]), [])
    else
      var (folders, root) := Collect(objects[..|objects| - 1]);
      var obj := objects[|objects| - 1];
      if IsFolderMarker(obj.key) then (folders, root)
      else if IsRootKey(obj.key) then (folders, root + [obj])
      else (folders.Append(Paths.Dir(obj.key), obj), root)
  }

  /** The folder dictionary once the root objects have been stored under "/". */
  function FolderGroups(objects: seq<S3Object>): Folders
  {
    var (folders, root) := Collect(objects);
    if root != [] then folders.Put("/", root) else folders
  }

  /** The listing loop: skip folder markers, collect root objects, append
      every other object to its folder; then store the root objects under "/". */
  method GroupByFolder(objects: seq<S3Object>) returns (folders: Folders)
    ensures folders == FolderGroups(objects)
  {
    folders := Folders([], map[]);
    var root: seq<S3Object> := [];
    var i := 0;
    while i < |objects|
      invariant 0 <= i <= |objects|
      invariant (folders, root) == Collect(objects[..i])
    {
      var obj := objects[i];
      if !IsFolderMarker(obj.key) {
        if IsRootKey(obj.key) {
          root := root + [obj];
        } else {
          folders := folders.Append(Paths.Dir(obj.key), obj);
        }
      }
      assert objects[..i + 1][..i] == objects[..i];
      i := i + 1;
    }
    assert objects[..i] == objects;
    if root != [] {
      folders := folders.Put("/", root);
    }
  }

  // ----- What the grouping contains, stated without the loop -----

  /** The objects of a folder below the root: not a marker, not a root
      object, and with exactly this folder prefix. */
  predicate InFolder(o: S3Object, folder: string)
  {
    !IsFolderMarker(o.key) && !IsRootKey(o.key) && Paths.Dir(o.key) == folder
  }

  /** The objects of `objects` filed under `folder` by the loop, in listing order. */
  function FolderMembers(objects: seq<S3Object>, folder: string): seq<S3Object>
  {
    if objects == [] then []
    else
      var last := objects[|objects| - 1];
      FolderMembers(objects[..|objects| - 1], folder) + (if InFolder(last, folder) then [last] else [])
  }

  /** The root objects of `objects`, in listing order. */
  function RootMembers(objects: seq<S3Object>): seq<S3Object>
  {
    if objects == [] then []
    else
      var last := objects[|objects| - 1];
      RootMembers(objects[..|objects| - 1])
        + (if !IsFolderMarker(last.key) && IsRootKey(last.key) then [last] else [])
  }

  lemma {:induction false} CollectRoot(objects: seq<S3Object>)
    ensures Collect(objects).1 == RootMembers(objects)
  {
    if objects != [] {
      CollectRoot(objects[..|objects| - 1]);
    }
  }

  lemma {:induction false} CollectValid(objects: seq<S3Object>)
    ensures Collect(objects).0.Valid()
  {
    if objects != [] {
      CollectValid(objects[..|objects| - 1]);
    }
  }

  lemma {:induction false} CollectFolders(objects: seq<S3Object>)
    ensures forall f :: f in Collect(objects).0.groups <==> FolderMembers(objects, f) != []
    ensures forall f :: f in Collect(objects).0.groups ==> Collect(objects).0.groups[f] == FolderMembers(objects, f)
  {
    if objects != [] {
      var prefix := objects[..|objects| - 1];
      var obj := objects[|objects| - 1];
      CollectFolders(prefix);
      var folders := Collect(prefix).0;
      if IsFolderMarker(obj.key) || IsRootKey(obj.key) {
        assert Collect(objects).0 == folders;
        assert forall f :: FolderMembers(objects, f) == FolderMembers(prefix, f);
      } else {
        var d := Paths.Dir(obj.key);
        var next := folders.Append(d, obj);
        assert Collect(objects).0 == next;
        forall f
          ensures f in next.groups <==> FolderMembers(objects, f) != []
          ensures f in next.groups ==> next.groups[f] == FolderMembers(objects, f)
        {
          if f == d {
            assert FolderMembers(objects, d) == FolderMembers(prefix, d) + [obj];
          } else {
            assert FolderMembers(objects, f) == FolderMembers(prefix, f);
          }
        }
      }
    }
  }

  /** After the listing loop, the root list holds the root objects and each
      folder below the root holds exactly its members, in listing order. */
  lemma CollectCharacterised(objects: seq<S3Object>)
    ensures Collect(objects).0.Valid()
    ensures Collect(objects).1 == RootMembers(objects)
    ensures forall f :: f in Collect(objects).0.groups <==> FolderMembers(objects, f) != []
    ensures forall f :: f in Collect(objects).0.groups ==> Collect(objects).0.groups[f] == FolderMembers(objects, f)
  {
    CollectValid(objects);
    CollectRoot(objects);
    CollectFolders(objects);
  }

  /** Everything the grouping holds: each folder below the root holds exactly
      its members in listing order; "/" holds the root objects when there are
      any, replacing whatever leading-slash keys had put there; no group is
      empty. */
  lemma FolderGroupsCharacterised(objects: seq<S3Object>)
    ensures FolderGroups(objects).Valid()
    ensures forall f :: f != "/" ==>
      (f in FolderGroups(objects).groups <==> FolderMembers(objects, f) != [])
    ensures forall f :: f != "/" && f in FolderGroups(objects).groups ==>
      FolderGroups(objects).groups[f] == FolderMembers(objects, f)
    ensures "/" in FolderGroups(objects).groups <==>
      RootMembers(objects) != [] || FolderMembers(objects, "/") != []
    ensures "/" in FolderGroups(objects).groups ==>
      FolderGroups(objects).groups["/"] ==
        if RootMembers(objects) != [] then RootMembers(objects) else FolderMembers(objects, "/")
    ensures forall f :: f in FolderGroups(objects).groups ==> FolderGroups(objects).groups[f] != []
  {
    CollectCharacterised(objects);
  }

  lemma FolderGroupsValid(objects: seq<S3Object>)
    ensures FolderGroups(objects).Valid()
    ensures forall f :: f in FolderGroups(objects).groups ==> FolderGroups(objects).groups[f] != []
  {
    FolderGroupsCharacterised(objects);
  }

  lemma {:induction false} FolderMembersOnly(objects: seq<S3Object>, folder: string, o: S3Object)
    ensures o in FolderMembers(objects, folder) <==> o in objects && InFolder(o, folder)
  {
    if objects != [] {
      FolderMembersOnly(objects[..|objects| - 1], folder, o);
      assert objects == objects[..|objects| - 1] + [objects[|objects| - 1]];
    }
  }

  lemma {:induction false} RootMembersOnly(objects: seq<S3Object>, o: S3Object)
    ensures o in RootMembers(objects) <==> o in objects && !IsFolderMarker(o.key) && IsRootKey(o.key)
  {
    if objects != [] {
      RootMembersOnly(objects[..|objects| - 1], o);
      assert objects == objects[..|objects| - 1] + [objects[|objects| - 1]];
    }
  }

  /** An object keyed "/x" (one '/', at the start) has the folder prefix "/",
      the same key as the root group. */
  predicate LeadingSlashOnly(key: string)
  {
    !IsFolderMarker(key) && !IsRootKey(key) && Paths.Dir(key) == "/"
  }

  /** Every object sits in the group of its own key and in no other group;
      every scannable object is in its group, except the leading-slash objects
      when there are root objects, which the root group replaced. */
  lemma Placement(objects: seq<S3Object>, o: S3Object)
    ensures forall f :: f in FolderGroups(objects).groups && o in FolderGroups(objects).groups[f] ==>
      !IsFolderMarker(o.key) && f == GroupKey(o.key)
    ensures o in objects && !IsFolderMarker(o.key) && !(RootMembers(objects) != [] && LeadingSlashOnly(o.key)) ==>
      GroupKey(o.key) in FolderGroups(objects).groups && o in FolderGroups(objects).groups[GroupKey(o.key)]
  {
    FolderGroupsCharacterised(objects);
    RootMembersOnly(objects, o);
    forall f | f in FolderGroups(objects).groups
      ensures o in FolderMembers(objects, f) <==> o in objects && InFolder(o, f)
    {
      FolderMembersOnly(objects, f, o);
    }
    FolderMembersOnly(objects, "/", o);
    if !IsFolderMarker(o.key) && !IsRootKey(o.key) {
      FolderMembersOnly(objects, Paths.Dir(o.key), o);
    }
  }

  /** Once any root object exists, objects keyed "/x" are in no group at all. */
  lemma LeadingSlashObjectsDropped(objects: seq<S3Object>, o: S3Object)
    requires RootMembers(objects) != []
    requires LeadingSlashOnly(o.key)
    ensures forall f :: f in FolderGroups(objects).groups ==> o !in FolderGroups(objects).groups[f]
  {
    Placement(objects, o);
    FolderGroupsCharacterised(objects);
    RootMembersOnly(objects, o);
  }

  // ----- Sampling each folder -----

  /** What random.sample(population, k) returns for 0 <= k < len(population):
      k objects taken from distinct positions. */
  predicate IsDraw(d: seq<S3Object>, population: seq<S3Object>, k: nat)
  {
    |d| == k && multiset(d) <= multiset(population)
  }

  ghost predicate ValidPicker(pick: (seq<S3Object>, nat) -> seq<S3Object>)
  {
    forall population, k: nat :: k < |population| ==> IsDraw(pick(population, k), population, k)
  }

  /** The metadata stored for one folder, with the objects drawn from it. */
  datatype FolderSample = FolderSample(folder: string, totalObjects: nat, sampleSize: nat, sampled: seq<S3Object>)

  /** What the entry of folder f, holding objs, records: its name, its size,
      the number drawn, which is min(size, sample size), and a draw that is a
      sub-multiset of the folder. */
  predicate EntryFor(e: FolderSample, f: string, objs: seq<S3Object>, rate: real, limit: int)
  {
    && e.folder == f
    && e.totalObjects == |objs|
    && e.sampleSize == |e.sampled| <= |objs|
    && e.sampleSize == Min(ClampedSize(|objs|, rate, limit), |objs|)
    && multiset(e.sampled) <= multiset(objs)
  }

  /** One folder's entry of sample_data; None when random.sample raises
      because the size is negative. */
  function SampleFolder(folder: string, objects: seq<S3Object>, rate: real, limit: int,
                        pick: (seq<S3Object>, nat) -> seq<S3Object>): (s: Option<FolderSample>)
    requires ValidPicker(pick)
    ensures s.None? <==> ClampedSize(|objects|, rate, limit) < 0
    ensures s.Some? ==> EntryFor(s.value, folder, objects, rate, limit)
    ensures s.Some? && ClampedSize(|objects|, rate, limit) >= |objects| ==> s.value.sampled == objects
  {
    var k := ClampedSize(|objects|, rate, limit);
    if k < |objects| then
      if k < 0 then None
      else
        var d := pick(objects, k);
        Some(FolderSample(folder, |objects|, |d|, d))
    else
      Some(FolderSample(folder, |objects|, |objects|, objects))
  }

  /** The entries of sample_data for the folders of `order`, in that order;
      None as soon as one folder's draw raises. */
  function SampleFolders(order: seq<string>, groups: map<string, seq<S3Object>>, rate: real, limit: int,
                         pick: (seq<S3Object>, nat) -> seq<S3Object>): Option<seq<FolderSample>>
    requires forall f :: f in order ==> f in groups
    requires ValidPicker(pick)
  {
    if order == [] then Some([])
    else
      match SampleFolders(order[..|order| - 1], groups, rate, limit, pick)
      case None => None
      case Some(samples) =>
        var f := order[|order| - 1];
        match SampleFolder(f, groups[f], rate, limit, pick)
        case None => None
        case Some(s) => Some(samples + [s])
  }

  /** sample_s3_data_by_folder on a listing. */
  function SampleData(objects: seq<S3Object>, rate: real, limit: int,
                      pick: (seq<S3Object>, nat) -> seq<S3Object>): Option<seq<FolderSample>>
    requires ValidPicker(pick)
  {
    FolderGroupsValid(objects);
    var g := FolderGroups(objects);
    SampleFolders(g.order, g.groups, rate, limit, pick)
  }

  lemma {:induction false} SampleFoldersAbort(order: seq<string>, groups: map<string, seq<S3Object>>,
                                              rate: real, limit: int, pick: (seq<S3Object>, nat) -> seq<S3Object>, i: nat)
    requires forall f :: f in order ==> f in groups
    requires ValidPicker(pick)
    requires i <= |order|
    requires SampleFolders(order[..i], groups, rate, limit, pick).None?
    ensures SampleFolders(order, groups, rate, limit, pick).None?
    decreases |order| - i
  {
    if i < |order| {
      assert order[..i + 1][..i] == order[..i];
      SampleFoldersAbort(order, groups, rate, limit, pick, i + 1);
    } else {
      assert order[..i] == order;
    }
  }

  /** The sampling loop over the folders, after the grouping loop. */
  method SampleByFolder(objects: seq<S3Object>, rate: real, limit: int,
                        pick: (seq<S3Object>, nat) -> seq<S3Object>) returns (data: Option<seq<FolderSample>>)
    requires ValidPicker(pick)
    ensures data == SampleData(objects, rate, limit, pick)
  {
    var folders := GroupByFolder(objects);
    FolderGroupsValid(objects);
    var order, groups := folders.order, folders.groups;
    var samples: seq<FolderSample> := [];
    var i := 0;
    while i < |order|
      invariant 0 <= i <= |order|
      invariant SampleFolders(order[..i], groups, rate, limit, pick) == Some(samples)
    {
      var f := order[i];
      var members := groups[f];
      var k := ClampedSize(|members|, rate, limit);
      var chosen: seq<S3Object>;
      assert order[..i + 1][..i] == order[..i];
      if k < |members| {
        if k < 0 {
          SampleFoldersAbort(order, groups, rate, limit, pick, i + 1);
          return None;
        }
        chosen := pick(members, k);
      } else {
        chosen := members;
      }
      samples := samples + [FolderSample(f, |members|, |chosen|, chosen)];
      i := i + 1;
    }
    assert order[..i] == order;
    data := Some(samples);
  }

  // ----- What the sample data says -----

  lemma {:induction false} SampleFoldersRaise(order: seq<string>, groups: map<string, seq<S3Object>>,
                                              rate: real, limit: int, pick: (seq<S3Object>, nat) -> seq<S3Object>)
    requires forall f :: f in order ==> f in groups
    requires forall f :: f in groups ==> groups[f] != []
    requires ValidPicker(pick)
    ensures SampleFolders(order, groups, rate, limit, pick).None? <==> limit < 0 && order != []
  {
    if order != [] {
      var prefix := order[..|order| - 1];
      SampleFoldersRaise(prefix, groups, rate, limit, pick);
      var f := order[|order| - 1];
      assert ClampedSize(|groups[f]|, rate, limit) < 0 <==> limit < 0;
    }
  }

  lemma {:induction false} SampleFoldersShape(order: seq<string>, groups: map<string, seq<S3Object>>,
                                              rate: real, limit: int, pick: (seq<S3Object>, nat) -> seq<S3Object>)
    requires forall f :: f in order ==> f in groups
    requires ValidPicker(pick)
    ensures SampleFolders(order, groups, rate, limit, pick).Some? ==>
      var data := SampleFolders(order, groups, rate, limit, pick).value;
      && |data| == |order|
      && forall i :: 0 <= i < |data| ==> EntryFor(data[i], order[i], groups[order[i]], rate, limit)
  {
    if order != [] {
      var prefix := order[..|order| - 1];
      SampleFoldersShape(prefix, groups, rate, limit, pick);
      var f := order[|order| - 1];
      var rest := SampleFolders(prefix, groups, rate, limit, pick);
      var last := SampleFolder(f, groups[f], rate, limit, pick);
      if rest.Some? && last.Some? {
        var data := rest.value + [last.value];
        assert SampleFolders(order, groups, rate, limit, pick) == Some(data);
        assert forall i :: 0 <= i < |prefix| ==> data[i] == rest.value[i] && order[i] == prefix[i];
      }
    }
  }

  /** The sample data lists every folder once, in dictionary order; each
      entry records its folder's size and the number actually drawn, which is
      min(size, clamp); the draw is a sub-multiset of the folder; the run
      raises exactly when the limit is negative and some folder exists. */
  lemma SampleDataShape(objects: seq<S3Object>, rate: real, limit: int,
                        pick: (seq<S3Object>, nat) -> seq<S3Object>)
    requires ValidPicker(pick)
    ensures FolderGroups(objects).Valid()
    ensures var g := FolderGroups(objects);
      SampleData(objects, rate, limit, pick).None? <==> limit < 0 && g.order != []
    ensures var g := FolderGroups(objects);
      SampleData(objects, rate, limit, pick).Some? ==>
      var data := SampleData(objects, rate, limit, pick).value;
      && |data| == |g.order|
      && forall i :: 0 <= i < |data| ==> EntryFor(data[i], g.order[i], g.groups[g.order[i]], rate, limit)
  {
    FolderGroupsValid(objects);
    var g := FolderGroups(objects);
    SampleFoldersRaise(g.order, g.groups, rate, limit, pick);
    SampleFoldersShape(g.order, g.groups, rate, limit, pick);
  }
}
