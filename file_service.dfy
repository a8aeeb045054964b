/** Image-folder helpers of fileService.ts: listing the files stored under
    `benigna_data/images/<folder>/` and deleting one by its key. */
module FileService {
  import opened Common
  import opened Storage
  import FileSystem

  /** `benigna_data/images/${folder}/` */
  function ImagesPrefix(folder: string): string {
    "benigna_data/images/" + folder + "/"
  }

  /** The test `listFiles` applies to each key. */
  predicate IsListedFile(folder: string, k: string) {
    StartsWith(k, ImagesPrefix(folder)) && !EndsWith(k, "/.directory")
  }

  /** The keys of `keys` that `listFiles(folder)` reports, in key order. */
  function ListedKeys(keys: seq<string>, folder: string): (r: seq<string>)
    ensures forall k :: k in r <==> k in keys && IsListedFile(folder, k)
  {
    if keys == [] then []
    else
      var init, k := keys[..|keys| - 1], keys[|keys| - 1];
      assert keys == init + [k];
      ListedKeys(init, folder) + (if IsListedFile(folder, k) then [k] else [])
  }

  /** `listFiles(folder)`: reads the store and changes nothing. */
  method ListFiles(ls: LocalStorage, folder: string) returns (files: seq<string>)
    requires ls.Valid()
    ensures files == ListedKeys(ls.keys, folder)
    ensures forall k :: k in files <==> k in ls.items && IsListedFile(folder, k)
  {
    var prefix := ImagesPrefix(folder);
    files := [];
    var i := 0;
    while i < |ls.keys|
      invariant 0 <= i <= |ls.keys|
      invariant files == ListedKeys(ls.keys[..i], folder)
    {
      var key := ls.keys[i];
      assert ls.keys[..i + 1][..i] == ls.keys[..i];
      if StartsWith(key, prefix) && !EndsWith(key, "/.directory") {
        files := files + [key];
      }
      i := i + 1;
    }
    assert ls.keys[..i] == ls.keys;
  }

  /** `deleteImage(path)`: removes exactly that key and reports success, also
      when nothing was stored there. */
  method DeleteImage(ls: LocalStorage, path: string) returns (ok: bool)
    requires ls.Valid()
    modifies ls
    ensures ls.Valid()
    ensures ok
    ensures ls.items == old(ls.items) - {path}
  {
    ls.RemoveItem(path);
    ok := true;
  }

  /** A collection whose directory does not begin with `im`, which holds for
      all five. */
  predicate OutsideImages<T>(c: FileSystem.Collection<T>) {
    |c.dir| >= 2 && (c.dir[0] != 'i' || c.dir[1] != 'm')
  }

  lemma CollectionsOutsideImages()
    ensures OutsideImages(FileSystem.Users) && OutsideImages(FileSystem.Institutions)
    ensures OutsideImages(FileSystem.Donations) && OutsideImages(FileSystem.Categories)
    ensures OutsideImages(FileSystem.Ratings)
  {
  }

  /** An image file key is never a record key, so storing or deleting an
      image keeps every collection healthy. */
  lemma ImageWriteKeepsHealthy<T>(items: map<string, Value>, c: FileSystem.Collection<T>, folder: string, k: string, v: Value)
    requires OutsideImages(c) && StartsWith(k, ImagesPrefix(folder))
    requires FileSystem.Healthy(items, c)
    ensures !FileSystem.InCollection(c, k)
    ensures FileSystem.Healthy(items[k := v], c)
    ensures FileSystem.Healthy(items - {k}, c)
  {
    var p := FileSystem.Prefix(c);
    var j := if c.dir[0] != 'i' then 13 else 14;
    assert p[13] == c.dir[0] && p[14] == c.dir[1];
    assert ImagesPrefix(folder)[13] == 'i' && ImagesPrefix(folder)[14] == 'm';
    NoCommonExtension(k, ImagesPrefix(folder), p, j);
    FileSystem.OutsideWriteKeepsHealthy(items, c, k, v);
    FileSystem.RemoveKeepsHealthy(items, c, k);
  }

  /** The prefix ends in `/`, so a sibling folder whose name merely extends
      `folder` (`profiles2` next to `profiles`) is not listed with it. */
  lemma SiblingNotListed(folder: string, extra: string, k: string)
    requires |extra| > 0 && extra[0] != '/'
    requires StartsWith(k, ImagesPrefix(folder + extra))
    ensures !IsListedFile(folder, k)
  {
    var j := |"benigna_data/images/"| + |folder|;
    assert ImagesPrefix(folder)[j] == '/';
    assert ImagesPrefix(folder + extra)[j] == extra[0];
    NoCommonExtension(k, ImagesPrefix(folder + extra), ImagesPrefix(folder), j);
  }

  /** The marker `initializeDirectories` writes for an image folder is never
      listed as a file of it. */
  lemma MarkerNotListed(folder: string)
    ensures !IsListedFile(folder, FileSystem.MarkerKey(FileSystem.DirectoryPath("images/" + folder)))
  {
    var k := FileSystem.MarkerKey(FileSystem.DirectoryPath("images/" + folder));
    assert k[|k| - |"/.directory"|..] == "/.directory";
  }
}
