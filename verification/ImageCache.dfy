/**
 The image cache: an index from URLs to file names over files written by fetches and sprite crops.

 A file is named by the hash of its URL and an extension; the hash is taken to be injective, so a name
 is its URL and extension.  Fetches of one URL exclude each other, so each is one call here.
 */
module ImageCache {
  import opened Common
  import S = SpriteUrl

  type Url = string
  type Bytes = seq<int>
  type PageKey = (string, string, string, nat)   // provider, gallery id, token, page

  datatype FileName = FileName(url: Url, ext: string)

  /** How moving a temporary file into place ends. */
  datatype Replace = Moved | Busy | Broken

  /** Everything the outside decides about one fetch: the answer, where it breaks off, and what the disk does. */
  datatype Weather = Weather(
    cancelled: bool,               // before anything is done
    answered: bool,                // an image response arrived
    ext: string,                   // extension of its media type
    chunks: seq<Bytes>,
    stop: Option<nat>,             // the transfer fails or is cancelled before this chunk
    replace: Replace,
    indexed: bool)                 // the index accepts the row

  /** The transfer completes, the file gets into place or is there already, and the row is written. */
  predicate Stored(w: Weather, there: bool) {
    w.stop.None? && (w.replace.Moved? || (w.replace.Busy? && there)) && w.indexed
  }

  predicate Fair(w: Weather) {
    !w.cancelled && w.answered && Stored(w, false)
  }

  datatype Fault = Cancelled | Failed

  /** Nothing goes wrong with the fetch of a URL, nor with those of the sheets it is cut from. */
  ghost predicate FairChain(tools: Tools, url: Url, sky: Url -> Weather)
    decreases |url|
  {
    var c := S.ParseSpriteCrop(url, tools.decode);
    Fair(sky(url)) && (c.Some? ==> FairChain(tools, c.value.base, sky) && forall sheet: Bytes :: tools.crop(sheet, c.value).Some?)
  }

  function Concat(chunks: seq<Bytes>): Bytes {
    if chunks == [] then [] else Concat(chunks[..|chunks| - 1]) + chunks[|chunks| - 1]
  }

  /** Nothing is lost or reordered between chunks. */
  lemma {:induction false} ConcatJoins(chunks: seq<Bytes>, more: seq<Bytes>)
    ensures Concat(chunks + more) == Concat(chunks) + Concat(more)
  {
    if more == [] {
      assert chunks + more == chunks;
    } else {
      var n := |more| - 1;
      var all := chunks + more;
      ConcatJoins(chunks, more[..n]);
      assert all[..|all| - 1] == chunks + more[..n] && all[|all| - 1] == more[n];
    }
  }

  lemma OneChunk(chunk: Bytes)
    ensures Concat([chunk]) == chunk
  {
    assert [chunk][..0] == [];
  }

  function Served(served: map<Url, set<Bytes>>, url: Url): set<Bytes> {
    if url in served then served[url] else {}
  }

  /** How sprites are decoded and cut. */
  datatype Tools = Tools(decode: string -> string, crop: (Bytes, S.Crop) -> Option<Bytes>)

  /**
   The bytes belong to the URL: a server delivered them completely for it, or they were cut, as the URL
   says, from bytes that belong to the sheet's URL.
   */
  ghost predicate Genuine(tools: Tools, served: map<Url, set<Bytes>>, url: Url, data: Bytes)
    decreases |url|
  {
    var c := S.ParseSpriteCrop(url, tools.decode);
    if c.None? then data in Served(served, url)
    else exists sheet: Bytes :: Genuine(tools, served, c.value.base, sheet) && tools.crop(sheet, c.value) == Some(data)
  }

  lemma {:induction false} GenuineGrows(tools: Tools, served: map<Url, set<Bytes>>, more: map<Url, set<Bytes>>, url: Url, data: Bytes)
    requires Genuine(tools, served, url, data) && Grown(served, more)
    ensures Genuine(tools, more, url, data)
    decreases |url|
  {
    var c := S.ParseSpriteCrop(url, tools.decode);
    if c.Some? {
      var sheet :| Genuine(tools, served, c.value.base, sheet) && tools.crop(sheet, c.value) == Some(data);
      GenuineGrows(tools, served, more, c.value.base, sheet);
    } else {
      assert Served(served, url) <= Served(more, url);
    }
  }

  ghost predicate Grown(served: map<Url, set<Bytes>>, more: map<Url, set<Bytes>>) {
    forall u :: Served(served, u) <= Served(more, u)
  }

  /** The URLs a fetch can touch: its own and those of the sheets it is cut from. */
  predicate Touches(tools: Tools, url: Url, u: Url)
    decreases |url|
  {
    u == url || (S.ParseSpriteCrop(url, tools.decode).Some? && Touches(tools, S.ParseSpriteCrop(url, tools.decode).value.base, u))
  }

  /** Rows and files of URLs that a fetch cannot touch are as before. */
  ghost predicate OthersKept(tools: Tools, url: Url, i0: map<Url, FileName>, f0: map<FileName, Bytes>, i1: map<Url, FileName>, f1: map<FileName, Bytes>) {
    && (forall u :: !Touches(tools, url, u) ==> (u in i1 <==> u in i0) && (u in i0 ==> i1[u] == i0[u]))
    && (forall f: FileName :: !Touches(tools, url, f.url) ==> (f in f1 <==> f in f0) && (f in f0 ==> f1[f] == f0[f]))
  }

  lemma SheetThenCrop(tools: Tools, url: Url, c: S.Crop, i0: map<Url, FileName>, f0: map<FileName, Bytes>,
                      i1: map<Url, FileName>, f1: map<FileName, Bytes>, i2: map<Url, FileName>, f2: map<FileName, Bytes>)
    requires S.ParseSpriteCrop(url, tools.decode) == Some(c)
    requires OthersKept(tools, c.base, i0, f0, i1, f1) && OthersKept(tools, url, i1, f1, i2, f2)
    ensures OthersKept(tools, url, i0, f0, i2, f2)
  {
    assert forall u :: !Touches(tools, url, u) ==> !Touches(tools, c.base, u);
  }

  lemma CropIsFromSheet(tools: Tools, served: map<Url, set<Bytes>>, url: Url, c: S.Crop, data: Bytes)
    requires S.ParseSpriteCrop(url, tools.decode) == Some(c)
    ensures Genuine(tools, served, url, data)
       <==> exists sheet :: Genuine(tools, served, c.base, sheet) && tools.crop(sheet, c) == Some(data)
  {
  }

  /** A thumbnail printed by the gallery parser is the rectangle it names, cut from bytes that belong to its sheet. */
  lemma PrintedSpriteIsItsRectangle(tools: Tools, served: map<Url, set<Bytes>>, base: Url, position: nat, width: nat, height: nat, data: Bytes)
    requires base != "" && width > 0 && height > 0 && S.Decoder(tools.decode)
    ensures Genuine(tools, served, S.PrintSprite(base, Some(position), width, height), data)
       <==> exists sheet :: Genuine(tools, served, base, sheet)
              && tools.crop(sheet, S.Crop(base, position, 0, position + width, height)) == Some(data)
  {
    var c := S.Crop(base, position, 0, position + width, height);
    S.RoundTrip(base, position, width, height, tools.decode);
    CropIsFromSheet(tools, served, S.PrintSprite(base, Some(position), width, height), c, data);
  }

  class ImageCache {
    const tools: Tools
    var index: map<Url, FileName>
    var pages: map<PageKey, FileName>
    var files: map<FileName, Bytes>
    ghost var served: map<Url, set<Bytes>>      // ledger: complete bodies, by the URL they were sent for
    ghost var resolved: map<PageKey, set<Url>>  // ledger: the URLs a page was resolved to

    ghost predicate Valid()
      reads this
    {
      && (forall f :: f in files ==> Genuine(tools, served, f.url, files[f]))
      && (forall u :: u in index ==> index[u].url == u)
      && (forall k :: k in pages ==> k in resolved && pages[k].url in resolved[k])
    }

    /** What the next fetch of a URL would take from the cache. */
    function Cached(url: Url): Option<Bytes>
      reads this
    {
      if url in index && index[url] in files && files[index[url]] != [] then Some(files[index[url]]) else None
    }

    constructor (tools: Tools)
      ensures Valid() && this.tools == tools && index == map[] && pages == map[] && files == map[]
    {
      this.tools := tools;
      index, pages, files, served, resolved := map[], map[], map[], map[], map[];
    }

    /** Forgets a row whose file is missing or empty. */
    method GetCachedPath(url: Url) returns (r: Option<FileName>)
      requires Valid()
      modifies this`index
      ensures Valid()
      ensures r.Some? <==> old(Cached(url)).Some?
      ensures r.Some? ==> index == old(index) && url in index && r.value == index[url]
      ensures r.None? ==> index == old(index) - {url}
    {
      if url !in index {
        assert index - {url} == index;
        return None;
      }
      if index[url] in files && files[index[url]] != [] {
        return Some(index[url]);
      }
      index := index - {url};
      r := None;
    }

    /** Collects the body in a temporary file and moves it into place; a file in use is read back instead. */
    method WriteResponse(name: FileName, w: Weather) returns (r: Option<Bytes>)
      requires Valid() && S.ParseSpriteCrop(name.url, tools.decode).None?
      modifies this`files, this`served
      ensures Valid() && Grown(old(served), served)
      ensures r.Some? ==> name in files && files[name] == r.value && Genuine(tools, served, name.url, r.value)
      ensures r.Some? <==> w.stop.None? && (w.replace.Moved? || (w.replace.Busy? && name in old(files)))
      ensures r.Some? && w.replace.Moved? ==> r.value == Concat(w.chunks)
      ensures files == if r.Some? then old(files)[name := r.value] else old(files)
    {
      var data: Bytes := [];
      var i := 0;
      while i < |w.chunks|
        invariant 0 <= i <= |w.chunks| && data == Concat(w.chunks[..i])
      {
        if w.stop == Some(i) {
          return None;
        }
        assert w.chunks[..i + 1][..i] == w.chunks[..i];
        if w.chunks[i] != [] {
          data := data + w.chunks[i];
        }
        i := i + 1;
      }
      assert w.chunks[..i] == w.chunks;
      if w.stop.Some? || w.replace.Broken? || (w.replace.Busy? && name !in files) {
        return None;
      }
      Deliver(name.url, data);
      if w.replace.Busy? {
        return Some(files[name]);
      }
      files := files[name := data];
      r := Some(data);
    }

    /** Ghost bookkeeping: the server has sent this body for this URL. */
    ghost method Deliver(url: Url, data: Bytes)
      requires Valid()
      modifies this`served
      ensures Valid() && Grown(old(served), served) && data in Served(served, url)
    {
      var before := served;
      served := served[url := Served(served, url) + {data}];
      forall f | f in files
        ensures Genuine(tools, served, f.url, files[f])
      {
        GenuineGrows(tools, before, served, f.url, files[f]);
      }
    }

    method PutCachedFilename(name: FileName, indexed: bool)
      requires Valid()
      modifies this`index
      ensures Valid()
      ensures indexed ==> index == old(index)[name.url := name]
      ensures !indexed ==> index == if name.url in old(index) && old(index)[name.url] != name then old(index) - {name.url} else old(index)
    {
      if name.url in index && index[name.url] != name {
        index := index - {name.url};
      }
      if indexed {
        index := index[name.url := name];
      }
    }

    /** A row of a URL outside the sprite chain keeps its place and its file. */
    ghost predicate KeepsOthers(url: Url, before: map<Url, FileName>, was: map<FileName, Bytes>)
      reads this
    {
      OthersKept(tools, url, before, was, index, files)
    }

    ghost predicate KeepsOtherPages(k: PageKey, before: map<PageKey, FileName>)
      reads this`pages
    {
      forall j :: j != k ==> (j in pages <==> j in before) && (j in pages ==> pages[j] == before[j])
    }

    /** What a successful fetch promises: bytes of this URL, in the file the index names. */
    ghost predicate Fetched(url: Url, data: Bytes)
      reads this
    {
      Genuine(tools, served, url, data) && url in index && index[url] in files && files[index[url]] == data
    }

    /**
     One fetch, from the cache if it can.  A hit changes nothing and asks no server; whatever happens, a success
     returns bytes that belong to the URL and leaves them indexed.
     */
    method Fetch(url: Url, sky: Url -> Weather) returns (r: Result<Bytes, Fault>)
      requires Valid()
      modifies this`index, this`files, this`served
      ensures Valid() && Grown(old(served), served)
      ensures old(Cached(url)).Some? && !sky(url).cancelled ==> r == Ok(old(Cached(url)).value)
      ensures old(Cached(url)).Some? || sky(url).cancelled ==> index == old(index) && files == old(files) && served == old(served)
      ensures r.Ok? ==> Fetched(url, r.value)
      ensures sky(url).cancelled ==> r == Err(Cancelled)
      ensures FairChain(tools, url, sky) ==> r.Ok?
      ensures !sky(url).cancelled && old(Cached(url)).None? && S.ParseSpriteCrop(url, tools.decode).None? ==>
                && (r.Ok? <==> sky(url).answered && Stored(sky(url), FileName(url, sky(url).ext) in old(files)))
                && (r.Ok? && sky(url).replace.Moved? ==> r.value == Concat(sky(url).chunks))
      ensures KeepsOthers(url, old(index), old(files))
      decreases |url|, 2
    {
      if sky(url).cancelled {
        return Err(Cancelled);
      }
      var path := GetCachedPath(url);
      if path.Some? {
        return Ok(files[path.value]);
      }
      var crop := S.ParseSpriteCrop(url, tools.decode);
      if crop.Some? {
        r := FetchSpriteCrop(url, crop.value, sky);
      } else {
        r := FetchFromNetwork(url, sky(url));
      }
    }

    method FetchFromNetwork(url: Url, w: Weather) returns (r: Result<Bytes, Fault>)
      requires Valid() && S.ParseSpriteCrop(url, tools.decode).None?
      modifies this`index, this`files, this`served
      ensures Valid() && Grown(old(served), served)
      ensures r.Ok? <==> w.answered && Stored(w, FileName(url, w.ext) in old(files))
      ensures r.Ok? ==> Fetched(url, r.value) && (w.replace.Moved? ==> r.value == Concat(w.chunks))
      ensures KeepsOthers(url, old(index), old(files))
    {
      if !w.answered {
        return Err(Failed);
      }
      var name := FileName(url, w.ext);
      var data := WriteResponse(name, w);
      if data.None? {
        return Err(Failed);
      }
      PutCachedFilename(name, w.indexed);
      r := if w.indexed then Ok(data.value) else Err(Failed);
    }

    method FetchSpriteCrop(url: Url, c: S.Crop, sky: Url -> Weather) returns (r: Result<Bytes, Fault>)
      requires Valid() && S.ParseSpriteCrop(url, tools.decode) == Some(c)
      modifies this`index, this`files, this`served
      ensures Valid() && Grown(old(served), served)
      ensures r.Ok? ==> Fetched(url, r.value)
      ensures FairChain(tools, url, sky) ==> r.Ok?
      ensures KeepsOthers(url, old(index), old(files))
      decreases |url|, 1
    {
      var sheet := Fetch(c.base, sky);
      ghost var rows, kept := index, files;
      SheetThenCrop(tools, url, c, old(index), old(files), rows, kept, rows, kept);
      if sheet.Err? {
        return sheet;
      }
      r := CutSheet(url, c, sheet.value, sky(url));
      SheetThenCrop(tools, url, c, old(index), old(files), rows, kept, index, files);
    }

    method CutSheet(url: Url, c: S.Crop, sheet: Bytes, w: Weather) returns (r: Result<Bytes, Fault>)
      requires Valid() && S.ParseSpriteCrop(url, tools.decode) == Some(c) && Genuine(tools, served, c.base, sheet)
      modifies this`index, this`files
      ensures Valid()
      ensures r.Ok? <==> tools.crop(sheet, c).Some? && Stored(w, FileName(url, w.ext) in old(files))
      ensures r.Ok? ==> Fetched(url, r.value) && (w.replace.Moved? ==> tools.crop(sheet, c) == Some(r.value))
      ensures KeepsOthers(url, old(index), old(files))
    {
      var cut := tools.crop(sheet, c);
      if cut.None? || w.stop.Some? {
        return Err(Failed);
      }
      CropIsFromSheet(tools, served, url, c, cut.value);
      r := StoreAndIndex(FileName(url, w.ext), cut.value, w);
    }

    method StoreAndIndex(name: FileName, cut: Bytes, w: Weather) returns (r: Result<Bytes, Fault>)
      requires Valid() && Genuine(tools, served, name.url, cut)
      modifies this`index, this`files
      ensures Valid()
      ensures r.Ok? <==> w.indexed && (w.replace.Moved? || (w.replace.Busy? && name in old(files)))
      ensures r.Ok? ==> Fetched(name.url, r.value) && (w.replace.Moved? ==> r.value == cut)
      ensures KeepsOthers(name.url, old(index), old(files))
    {
      var data := StoreCrop(name, cut, w.replace);
      if data.None? {
        return Err(Failed);
      }
      PutCachedFilename(name, w.indexed);
      r := if w.indexed then Ok(data.value) else Err(Failed);
    }

    method StoreCrop(name: FileName, cut: Bytes, replace: Replace) returns (r: Option<Bytes>)
      requires Valid() && Genuine(tools, served, name.url, cut)
      modifies this`files
      ensures Valid()
      ensures r.Some? <==> replace.Moved? || (replace.Busy? && name in old(files))
      ensures r.Some? ==> name in files && files[name] == r.value && Genuine(tools, served, name.url, r.value)
      ensures files == if r.Some? then old(files)[name := r.value] else old(files)
      ensures r.Some? && replace.Moved? ==> r.value == cut
    {
      if replace.Moved? {
        files := files[name := cut];
        return Some(cut);
      }
      r := if replace.Busy? && name in files then Some(files[name]) else None;
    }

    /** Removes every file and every row; it runs while no fetch does. */
    method Clear()
      requires Valid()
      modifies this`index, this`pages, this`files
      ensures Valid() && index == map[] && pages == map[] && files == map[]
    {
      index, pages, files := map[], map[], map[];
    }

    method GetGalleryPagePath(k: PageKey) returns (r: Option<FileName>)
      requires Valid()
      modifies this`pages
      ensures Valid()
      ensures r.Some? <==> k in old(pages) && old(pages)[k] in files && files[old(pages)[k]] != []
      ensures r.Some? ==> pages == old(pages) && r.value == pages[k]
      ensures r.None? ==> pages == old(pages) - {k}
    {
      if k !in pages {
        assert pages - {k} == pages;
        return None;
      }
      if pages[k] in files && files[pages[k]] != [] {
        return Some(pages[k]);
      }
      pages := pages - {k};
      r := None;
    }

    ghost method Resolve(k: PageKey, url: Url)
      requires Valid()
      modifies this`resolved
      ensures Valid() && k in resolved && url in resolved[k]
      ensures forall j :: j in old(resolved) ==> j in resolved && old(resolved)[j] <= resolved[j]
    {
      resolved := resolved[k := (if k in resolved then resolved[k] else {}) + {url}];
    }

    /** Fetches what the page resolves to and makes its row, unless the file was cleared away in between. */
    method FetchAndRecord(k: PageKey, url: Url, sky: Url -> Weather, cleared: bool) returns (r: Result<Bytes, Fault>)
      requires Valid() && k !in pages && k in resolved && url in resolved[k]
      modifies this`index, this`pages, this`files, this`served
      ensures Valid() && Grown(old(served), served)
      ensures FairChain(tools, url, sky) ==> r.Ok?
      ensures r.Ok? ==> Genuine(tools, served, url, r.value)
      ensures r.Ok? && !cleared ==> k in pages && pages[k].url == url && pages[k] in files && files[pages[k]] == r.value
      ensures r.Ok? && cleared ==> pages == map[] && files == map[] && index == map[]
      ensures !cleared || r.Err? ==> KeepsOtherPages(k, old(pages)) && KeepsOthers(url, old(index), old(files))
      ensures r.Err? ==> pages == old(pages)
    {
      r := Fetch(url, sky);
      if r.Ok? {
        var name := index[url];
        RecordPage(k, name, cleared);
      }
    }

    method RecordPage(k: PageKey, name: FileName, cleared: bool)
      requires Valid() && name in files && k in resolved && name.url in resolved[k]
      modifies this`index, this`pages, this`files
      ensures Valid()
      ensures cleared ==> pages == map[] && files == map[] && index == map[]
      ensures !cleared ==> pages == old(pages)[k := name] && files == old(files) && index == old(index)
    {
      if cleared {
        Clear();
      }
      if name in files {
        pages := pages[k := name];
      }
    }

    /** The page has a row whose file is there. */
    predicate HasPage(k: PageKey)
      reads this
    {
      k in pages && pages[k] in files && files[pages[k]] != []
    }

    /**
     A page of a gallery: its own row first, then the URL it resolves to.  A clear may come between the
     fetch and the new row; then no row is made.  What is returned always belongs to a URL the page resolved to.
     */
    method FetchGalleryPage(k: PageKey, url: Url, sky: Url -> Weather, cleared: bool) returns (r: Result<Bytes, Fault>)
      requires Valid()
      modifies this
      ensures Valid() && Grown(old(served), served)
      ensures FairChain(tools, url, sky) ==> r.Ok?
      ensures old(HasPage(k)) ==> r == Ok(old(files)[old(pages)[k]]) && pages == old(pages) && files == old(files) && index == old(index)
      ensures r.Ok? && !cleared ==> k in pages
      ensures r.Ok? ==> k in resolved && exists u :: u in resolved[k] && Genuine(tools, served, u, r.value)
      ensures r.Ok? && !cleared && !old(HasPage(k)) ==> pages[k].url == url && pages[k] in files && files[pages[k]] == r.value
      ensures r.Ok? && cleared && !old(HasPage(k)) ==> pages == map[] && files == map[] && index == map[]
      ensures !cleared || r.Err? ==> KeepsOtherPages(k, old(pages)) && KeepsOthers(url, old(index), old(files))
      ensures r.Err? ==> k !in pages
    {
      var path := GetGalleryPagePath(k);
      if path.Some? {
        assert path.value.url in resolved[k];
        return Ok(files[path.value]);
      }
      Resolve(k, url);
      r := FetchAndRecord(k, url, sky, cleared);
    }
  }
}
