/** The model registry: which installed packages offer a wide model, built from the patch directory. */
module ModelRegistry {
  import opened Wrappers

  datatype Routing = Routing(modelID: string, tags: seq<string>)

  /** cognitive.json of a package: routing and filename are missing where their objects are. */
  datatype ManifestFile = Unreadable | Undecodable | Decoded(routing: Option<Routing>, filename: Option<string>)

  datatype DirEntry = DirEntry(name: string, isDir: bool, manifest: ManifestFile)

  datatype Entry = Entry(modelID: string, tags: seq<string>, ggufPath: string)

  /** The patch directory: its path, its listing if it can be read, and the files that exist. */
  datatype PatchDir = PatchDir(path: string, listing: Option<seq<DirEntry>>, files: set<string>)

  function WeightsPath(dir: PatchDir, name: string, filename: string): (p: string)
    ensures p != ""
  {
    dir.path + "/" + name + "/weights/" + filename
  }

  /** The directory entry offers model id: a readable manifest routes it and its weights exist. */
  predicate Offers(dir: PatchDir, e: DirEntry, id: string) {
    e.isDir && e.manifest.Decoded? && e.manifest.routing.Some? && e.manifest.routing.value.modelID == id && id != ""
    && e.manifest.filename.Some? && WeightsPath(dir, e.name, e.manifest.filename.value) in dir.files
  }

  function EntryOf(dir: PatchDir, e: DirEntry): Entry {
    if e.manifest.Decoded? && e.manifest.routing.Some? && e.manifest.filename.Some? then
      Entry(e.manifest.routing.value.modelID, e.manifest.routing.value.tags,
        WeightsPath(dir, e.name, e.manifest.filename.value))
    else Entry("", [], "")
  }

  ghost predicate Offered(dir: PatchDir, listing: seq<DirEntry>, id: string) {
    exists i :: 0 <= i < |listing| && Offers(dir, listing[i], id)
  }

  /** Entry i of the listing is the last to offer id, and what it says is entry. */
  ghost predicate LastOffer(dir: PatchDir, listing: seq<DirEntry>, i: int, id: string, entry: Entry) {
    0 <= i < |listing| && Offers(dir, listing[i], id) && entry == EntryOf(dir, listing[i])
    && forall j | i < j < |listing| :: !Offers(dir, listing[j], id)
  }

  /** m holds exactly the ids offered, each with what its last offer says. */
  ghost predicate Registers(m: map<string, Entry>, dir: PatchDir, listing: seq<DirEntry>) {
    (forall id :: id in m <==> Offered(dir, listing, id))
    && forall id | id in m :: exists i :: LastOffer(dir, listing, i, id, m[id])
  }

  /** The declarative description leaves no choice. */
  lemma {:induction false} RegistersUnique(m: map<string, Entry>, m': map<string, Entry>, dir: PatchDir,
      listing: seq<DirEntry>)
    requires Registers(m, dir, listing) && Registers(m', dir, listing)
    ensures m == m'
  {
    hide Offers, EntryOf, Offered;
    forall id | id in m
      ensures id in m' && m[id] == m'[id]
    {
      assert Offered(dir, listing, id);
      var i :| LastOffer(dir, listing, i, id, m[id]);
      var j :| LastOffer(dir, listing, j, id, m'[id]);
      assert i == j;
    }
    assert forall id | id in m' :: Offered(dir, listing, id);
  }

  /** Every entry is filed under its own id and names a file that exists, by a non-empty path. */
  ghost predicate Sound(m: map<string, Entry>, files: set<string>) {
    forall id | id in m :: id != "" && m[id].modelID == id && m[id].ggufPath != "" && m[id].ggufPath in files
  }

  lemma {:induction false} RegistersSound(m: map<string, Entry>, dir: PatchDir, listing: seq<DirEntry>)
    requires Registers(m, dir, listing)
    ensures Sound(m, dir.files)
  {
    hide WeightsPath;
    forall id | id in m
      ensures id != "" && m[id].modelID == id && m[id].ggufPath != "" && m[id].ggufPath in dir.files
    {
      var i :| LastOffer(dir, listing, i, id, m[id]);
    }
  }

  lemma {:induction false} OfferedNext(dir: PatchDir, seen: seq<DirEntry>, e: DirEntry, id: string)
    ensures Offered(dir, seen + [e], id) <==> Offered(dir, seen, id) || Offers(dir, e, id)
  {
    hide Offers;
    var listing := seen + [e];
    assert listing[|seen|] == e && forall i | 0 <= i < |seen| :: listing[i] == seen[i];
    if Offered(dir, seen, id) {
      var i :| 0 <= i < |seen| && Offers(dir, seen[i], id);
      assert Offers(dir, listing[i], id);
    }
  }

  lemma {:induction false} LastOfferNext(dir: PatchDir, seen: seq<DirEntry>, e: DirEntry, i: int, id: string,
      entry: Entry)
    ensures !Offers(dir, e, id) && LastOffer(dir, seen, i, id, entry) ==> LastOffer(dir, seen + [e], i, id, entry)
    ensures Offers(dir, e, id) ==> LastOffer(dir, seen + [e], |seen|, id, EntryOf(dir, e))
  {
    hide Offers, EntryOf;
    var listing := seen + [e];
    assert listing[|seen|] == e && forall j | 0 <= j < |seen| :: listing[j] == seen[j];
  }

  /** One more directory entry: it takes its id over, or changes nothing. */
  lemma {:induction false} RegistersNext(m: map<string, Entry>, dir: PatchDir, seen: seq<DirEntry>, e: DirEntry,
      id: string)
    requires Registers(m, dir, seen) && forall x :: Offers(dir, e, x) ==> x == id
    ensures Registers(if Offers(dir, e, id) then m[id := EntryOf(dir, e)] else m, dir, seen + [e])
  {
    hide Offers, EntryOf, Offered, LastOffer;
    var m' := if Offers(dir, e, id) then m[id := EntryOf(dir, e)] else m;
    forall x
      ensures x in m' <==> Offered(dir, seen + [e], x)
    {
      OfferedNext(dir, seen, e, x);
    }
    forall x | x in m'
      ensures exists i :: LastOffer(dir, seen + [e], i, x, m'[x])
    {
      if Offers(dir, e, x) {
        LastOfferNext(dir, seen, e, 0, x, m'[x]);
      } else {
        var i :| LastOffer(dir, seen, i, x, m[x]);
        LastOfferNext(dir, seen, e, i, x, m[x]);
      }
    }
  }

  /** The directory entry is a package that offers model id: its manifest routes id, with these tags, and the
      weights it names exist at path. */
  ghost predicate Package(dir: PatchDir, e: DirEntry, id: string, tags: seq<string>, path: string) {
    e.isDir && id != "" && path in dir.files
    && exists filename :: e.manifest == Decoded(Some(Routing(id, tags)), Some(filename))
                          && path == dir.path + "/" + e.name + "/weights/" + filename
  }

  ghost predicate IsPackage(dir: PatchDir, e: DirEntry, id: string) {
    exists tags, path :: Package(dir, e, id, tags, path)
  }

  lemma {:induction false} OffersPackage(dir: PatchDir, e: DirEntry, id: string)
    ensures Offers(dir, e, id) <==> IsPackage(dir, e, id)
    ensures forall tags, path | Package(dir, e, id, tags, path) :: EntryOf(dir, e) == Entry(id, tags, path)
  {
    if Offers(dir, e, id) {
      var routing, filename := e.manifest.routing.value, e.manifest.filename.value;
      assert e.manifest == Decoded(Some(Routing(id, routing.tags)), Some(filename));
      assert Package(dir, e, id, routing.tags, WeightsPath(dir, e.name, filename));
    }
  }

  /** Main result. The registry says of an id exactly what the last package that offers it says: the tags that
      become its routing hints, and the path of its weights. */
  lemma {:induction false} LastPackageWins(m: map<string, Entry>, dir: PatchDir, listing: seq<DirEntry>, i: nat,
      id: string, tags: seq<string>, path: string)
    requires Registers(m, dir, listing) && i < |listing| && Package(dir, listing[i], id, tags, path)
    requires forall j | i < j < |listing| :: !IsPackage(dir, listing[j], id)
    ensures id in m && m[id] == Entry(id, tags, path)
  {
    hide Offers, EntryOf, IsPackage, WeightsPath;
    forall j | 0 <= j < |listing|
      ensures Offers(dir, listing[j], id) <==> IsPackage(dir, listing[j], id)
    {
      OffersPackage(dir, listing[j], id);
    }
    OffersPackage(dir, listing[i], id);
    PackageIs(dir, listing[i], id, tags, path);
    assert Offered(dir, listing, id);
    var k :| LastOffer(dir, listing, k, id, m[id]);
    assert k == i;
  }

  lemma {:induction false} PackageIs(dir: PatchDir, e: DirEntry, id: string, tags: seq<string>, path: string)
    requires Package(dir, e, id, tags, path)
    ensures IsPackage(dir, e, id)
  {
  }

  /** And it says something of no other id. */
  lemma {:induction false} OnlyPackages(m: map<string, Entry>, dir: PatchDir, listing: seq<DirEntry>, id: string)
    requires Registers(m, dir, listing) && id in m
    ensures exists i :: 0 <= i < |listing| && IsPackage(dir, listing[i], id)
  {
    hide Offers, IsPackage, EntryOf;
    assert Offered(dir, listing, id);
    var i :| 0 <= i < |listing| && Offers(dir, listing[i], id);
    OffersPackage(dir, listing[i], id);
  }

  class Registry {
    var models: map<string, Entry>

    constructor ()
      ensures models == map[]
    {
      models := map[];
    }

    /** buildModelRegistry. */
    method Build(dir: PatchDir)
      modifies this
      ensures dir.listing.None? ==> models == map[]
      ensures dir.listing.Some? ==> Registers(models, dir, dir.listing.value)
      ensures Sound(models, dir.files)
    {
      hide WeightsPath, Registers;
      models := map[];
      EmptyRegisters(dir);
      RegistersSound(models, dir, []);
      if dir.listing.None? {
        return;
      }
      var entries := dir.listing.value;
      for i := 0 to |entries|
        invariant Registers(models, dir, entries[..i])
      {
        var e := entries[i];
        assert entries[..i + 1] == entries[..i] + [e];
        RegistersNext(models, dir, entries[..i], e, if e.manifest.Decoded? && e.manifest.routing.Some?
          then e.manifest.routing.value.modelID else "");
        if e.isDir && e.manifest.Decoded? && e.manifest.routing.Some? {
          var routing := e.manifest.routing.value;
          if routing.modelID != "" {
            var ggufPath := "";
            if e.manifest.filename.Some? {
              ggufPath := WeightsPath(dir, e.name, e.manifest.filename.value);
            }
            if ggufPath != "" && ggufPath in dir.files {
              models := models[routing.modelID := Entry(routing.modelID, routing.tags, ggufPath)];
            }
          }
        }
      }
      assert entries[..|entries|] == entries;
      RegistersSound(models, dir, entries);
    }

    /** modelRegistryRoutingHints: the same ids, with their tags. */
    method RoutingHints() returns (hints: map<string, seq<string>>)
      ensures hints.Keys == models.Keys
      ensures forall id | id in hints :: hints[id] == models[id].tags
    {
      hints := map[];
      var left := models.Keys;
      while left != {}
        invariant left <= models.Keys && hints.Keys == models.Keys - left
        invariant forall id | id in hints :: hints[id] == models[id].tags
        decreases |left|
      {
        var id :| id in left;
        hints := hints[id := models[id].tags];
        left := left - {id};
      }
    }

    /** resolveModelGGUF; every hinted id resolves. */
    method Resolve(modelID: string) returns (path: string)
      ensures modelID in models ==> path == models[modelID].ggufPath
      ensures modelID !in models ==> path == ""
    {
      if modelID in models {
        return models[modelID].ggufPath;
      }
      path := "";
    }
  }

  lemma {:induction false} EmptyRegisters(dir: PatchDir)
    ensures Registers(map[], dir, [])
  {
  }

  /** Hints and resolution agree: an id is hinted exactly when it resolves to a non-empty path. */
  lemma {:induction false} HintsResolve(m: map<string, Entry>, dir: PatchDir, listing: seq<DirEntry>,
      hints: map<string, seq<string>>, id: string)
    requires Registers(m, dir, listing) && hints.Keys == m.Keys
    ensures id in hints <==> id in m && m[id].ggufPath != ""
  {
    hide Registers, Offers;
    RegistersSound(m, dir, listing);
  }
}
