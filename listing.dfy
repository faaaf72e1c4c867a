/** Listing: `list` builds the cursor of a listing and picks one of two page
    producers; each producer asks the bucket for one page, appends the
    formatted records to the page and either advances the cursor or reports
    that the listing is complete. The bucket is a function from the request
    to its response, standing for the SDK call that the Go code runs in a
    goroutine and drains through a channel. */
module Listing {
  import opened Wrappers
  import opened Service
  import opened Objects

  /** The continuation token with which the service marks the last page. */
  const IterEnd: string := "g2gCZAAEbmV4dGQAA2VvZg"

  const HeaderListIter: string := "X-List-Iter"
  const HeaderListLimit: string := "X-List-Limit"

  /** The page size the SDK recommends, sent as a header value. */
  const DefaultLimit: string := "50"

  /** The framework's list mode, reduced to the two questions `list` asks. */
  datatype ListMode = ListMode(isDir: bool, isPrefix: bool)

  /** The options of a `list` call that this model reads. */
  datatype ListOptions = ListOptions(continuationToken: Option<string>, listMode: ListMode)

  /** Which page producer a listing runs. */
  datatype Producer = ByDir | ByPrefix

  /** The value of the cursor state `objectPageStatus`. */
  datatype Cursor = Cursor(limit: string, prefix: string, iter: string)

  /** What `list` hands to the framework's object iterator. */
  datatype ListHandle = ListHandle(next: Producer, status: Cursor)

  /** `list`: a cursor at the key of `path` with the default page size and the
      supplied continuation token (or none, meaning the start); the directory
      producer when the mode asks for a directory (checked first), the prefix
      producer when it asks for a prefix, and an error otherwise. */
  function List(s: Storage, path: string, opt: ListOptions): (r: Result<ListHandle, string>)
    ensures r.Failure? <==> !opt.listMode.isDir && !opt.listMode.isPrefix
    ensures r.Failure? ==> r.error == "invalid list mode"
    ensures r.Success? ==> (r.value.next == ByDir <==> opt.listMode.isDir)
    ensures r.Success? ==> r.value.status.limit == DefaultLimit
    ensures r.Success? ==> RelPath(s, r.value.status.prefix) == path
    ensures r.Success? ==> Root(s) <= r.value.status.prefix
    ensures r.Success? && opt.continuationToken.Some? ==> r.value.status.iter == opt.continuationToken.value
    ensures r.Success? && opt.continuationToken.None? ==> r.value.status.iter == ""
  {
    var input := Cursor(DefaultLimit, AbsPath(s, path), opt.continuationToken.GetOr(""));
    RelOfAbs(s, path);
    if opt.listMode.isDir then
      Success(ListHandle(ByDir, input))
    else if opt.listMode.isPrefix then
      Success(ListHandle(ByPrefix, input))
    else
      Failure("invalid list mode")
  }

  /** What `metadata` reports about the handle. */
  datatype StorageMeta = StorageMeta(name: string, workDir: string)

  /** `metadata`: the handle's name and working directory. */
  function Metadata(s: Storage): (m: StorageMeta)
    ensures m.name == s.name && m.workDir == s.workDir
  {
    StorageMeta(s.name, s.workDir)
  }

  /** A bucket listing request: the key prefix, how deep to list (1: one
      level, -1: recursively) and the request headers. */
  datatype ListRequest = ListRequest(path: string, maxListLevel: int, headers: map<string, string>)

  /** What a bucket listing yields: the records in the order they arrive on
      the channel, the continuation token the SDK writes back into the
      `X-List-Iter` header, and the error the SDK call returns. */
  datatype ListResponse = ListResponse(records: seq<FileInfo>, nextIter: string, err: Option<string>)

  /** The request a producer sends for the page at cursor `c`. */
  function Request(c: Cursor, p: Producer): (req: ListRequest)
    ensures req.path == c.prefix
    ensures req.headers.Keys == {HeaderListLimit, HeaderListIter}
    ensures req.headers[HeaderListLimit] == c.limit && req.headers[HeaderListIter] == c.iter
    ensures p == ByDir ==> req.maxListLevel == 1
    ensures p == ByPrefix ==> req.maxListLevel == -1
  {
    var header := map[HeaderListLimit := c.limit, HeaderListIter := c.iter];
    ListRequest(c.prefix, if p == ByDir then 1 else -1, header)
  }

  /** What a producer reports after draining a page. */
  datatype Step = More | IterateDone

  /** The outcome of a page whose returned token is `nextIter`. */
  function Outcome(nextIter: string): (r: Step)
    ensures r == IterateDone <==> nextIter == IterEnd
  {
    if nextIter == IterEnd then IterateDone else More
  }

  /** The cursor after a page whose returned token is `nextIter`: the end
      token leaves it as it was, any other token becomes the new position;
      page size and prefix never change. */
  function Advance(c: Cursor, nextIter: string): (c': Cursor)
    ensures c'.limit == c.limit && c'.prefix == c.prefix
    ensures nextIter == IterEnd ==> c' == c
    ensures nextIter != IterEnd ==> c'.iter == nextIter
  {
    if nextIter == IterEnd then c else c.(iter := nextIter)
  }

  /** The object the directory producer makes of a directory record: a
      finished directory object with the record's metadata as user
      metadata, and no size, time, hash or content type. */
  function DirObject(s: Storage, v: FileInfo): (o: Object)
    ensures o.id == v.name && o.path == RelPath(s, v.name)
    ensures o.mode == {Dir} && o.done
    ensures o.userMetadata == Some(v.meta) && o.serviceMetadata.None?
    ensures o.contentLength.None? && o.lastModified.None?
    ensures o.etag.None? && o.contentType.None?
  {
    Object(
      id := v.name,
      path := RelPath(s, v.name),
      mode := {Dir},
      done := true,
      contentLength := None,
      lastModified := None,
      serviceMetadata := None,
      userMetadata := Some(v.meta),
      etag := None,
      contentType := None)
  }

  /** The object the directory producer makes of one record. */
  function DirModeEntry(s: Storage, v: FileInfo): Object {
    if v.isDir then DirObject(s, v) else FormatFileObject(s, v)
  }

  /** The objects a directory-mode page adds: one per record, in order. */
  function DirPage(s: Storage, rs: seq<FileInfo>): (os: seq<Object>)
    ensures |os| == |rs|
    ensures forall i :: 0 <= i < |rs| ==> os[i] == DirModeEntry(s, rs[i])
  {
    if rs == [] then [] else DirPage(s, rs[..|rs| - 1]) + [DirModeEntry(s, rs[|rs| - 1])]
  }

  /** The number of file (non-directory) records in `rs`, counted from the
      front. */
  function FileCount(rs: seq<FileInfo>): nat {
    if rs == [] then 0 else (if rs[0].isDir then 0 else 1) + FileCount(rs[1..])
  }

  /** Counting a record appended at the back adds one exactly for a file. */
  lemma {:induction false} FileCountAppend(rs: seq<FileInfo>, v: FileInfo)
    ensures FileCount(rs + [v]) == FileCount(rs) + (if v.isDir then 0 else 1)
  {
    if rs != [] {
      assert (rs + [v])[1..] == rs[1..] + [v];
      FileCountAppend(rs[1..], v);
    }
  }

  /** The file records among `rs`, in order: as many as there are file
      records, and no directory records. */
  function Files(rs: seq<FileInfo>): (fs: seq<FileInfo>)
    ensures |fs| == FileCount(rs)
    ensures forall v :: v in fs <==> v in rs && !v.isDir
  {
    if rs == [] then []
    else
      var init, last := rs[..|rs| - 1], rs[|rs| - 1];
      assert rs == init + [last];
      FileCountAppend(init, last);
      Files(init) + (if last.isDir then [] else [last])
  }

  /** The objects a prefix-mode page adds: a file object for each file
      record, in order; directory records are skipped. */
  function PrefixPage(s: Storage, rs: seq<FileInfo>): (os: seq<Object>)
    ensures |os| <= |rs|
    ensures forall o :: o in os ==> o.mode == {Read}
  {
    if rs == [] then []
    else
      var last := rs[|rs| - 1];
      PrefixPage(s, rs[..|rs| - 1]) + (if last.isDir then [] else [FormatFileObject(s, last)])
  }

  /** A prefix-mode page is the directory-mode page of the file records
      alone, so it grows by exactly the number of file records. */
  lemma {:induction false} PrefixPageIsFilesPage(s: Storage, rs: seq<FileInfo>)
    ensures PrefixPage(s, rs) == DirPage(s, Files(rs))
    ensures |PrefixPage(s, rs)| == FileCount(rs)
  {
    if rs != [] {
      var init, last := rs[..|rs| - 1], rs[|rs| - 1];
      PrefixPageIsFilesPage(s, init);
      if !last.isDir {
        var fs := Files(init) + [last];
        assert fs[..|fs| - 1] == Files(init);
      }
    }
  }

  /** Every object of either kind of page has the object shape: directory
      objects carry no size, hash or content type. */
  lemma PagesAreWellShaped(s: Storage, rs: seq<FileInfo>)
    ensures forall o :: o in DirPage(s, rs) ==> ShapeOk(o)
    ensures forall o :: o in PrefixPage(s, rs) ==> ShapeOk(o) && Dir !in o.mode
  {
    forall o | o in DirPage(s, rs) ensures ShapeOk(o) {
      var i :| 0 <= i < |rs| && DirPage(s, rs)[i] == o;
      if !rs[i].isDir {
        FileObjectShape(s, rs[i]);
      }
    }
  }

  /** Under the default working directory: when the one-level listing
      delivers `a/x.txt` (a file) and `a/y/` (a directory), the directory
      producer yields a file object and a directory object; when the
      recursive listing delivers `a/x.txt`, `a/y/` and `a/y/z.txt`, the
      prefix producer yields only the two file objects, with their keys as
      paths. Which records each listing depth delivers is the bucket's
      business and is not part of this model. */
  lemma ExamplePages()
    ensures var s := NewStorage("bucket", None);
      var x := FileInfo("a/x.txt", false, 3, 0, map[], "", "");
      var y := FileInfo("a/y/", true, 0, 0, map[], "", "");
      var z := FileInfo("a/y/z.txt", false, 5, 0, map[], "", "");
      && DirPage(s, [x, y]) == [FormatFileObject(s, x), DirObject(s, y)]
      && DirPage(s, [x, y])[1].path == "a/y/" && Dir in DirPage(s, [x, y])[1].mode
      && PrefixPage(s, [x, y, z]) == [FormatFileObject(s, x), FormatFileObject(s, z)]
      && PrefixPage(s, [x, y, z])[1].path == "a/y/z.txt"
  {
    var s := NewStorage("bucket", None);
    DefaultWorkDirIsIdentity("bucket", "a/y/");
    DefaultWorkDirIsIdentity("bucket", "a/y/z.txt");
    var x := FileInfo("a/x.txt", false, 3, 0, map[], "", "");
    var y := FileInfo("a/y/", true, 0, 0, map[], "", "");
    var z := FileInfo("a/y/z.txt", false, 5, 0, map[], "", "");
    assert [x, y, z][..2] == [x, y];
    assert [x, y][..1] == [x];
    assert [x][..0] == [];
    assert PrefixPage(s, [x]) == [FormatFileObject(s, x)];
    assert PrefixPage(s, [x, y]) == [FormatFileObject(s, x)];
  }

  /** The cursor after a run of pages whose returned tokens are `tokens`. */
  function CursorAfter(c: Cursor, tokens: seq<string>): Cursor {
    if tokens == [] then c else Advance(CursorAfter(c, tokens[..|tokens| - 1]), tokens[|tokens| - 1])
  }

  /** However many pages are fetched, the page size and prefix stay as `list`
      set them, and the position is either the starting one or a token the
      bucket returned, never the end token. */
  lemma {:induction false} CursorStaysInListing(c: Cursor, tokens: seq<string>)
    ensures CursorAfter(c, tokens).limit == c.limit
    ensures CursorAfter(c, tokens).prefix == c.prefix
    ensures CursorAfter(c, tokens).iter == c.iter ||
      (CursorAfter(c, tokens).iter in tokens && CursorAfter(c, tokens).iter != IterEnd)
  {
    if tokens != [] {
      CursorStaysInListing(c, tokens[..|tokens| - 1]);
    }
  }

  /** The mutable cursor state `objectPageStatus`. */
  class PageStatus {
    var limit: string
    var prefix: string
    var iter: string

    function Value(): Cursor
      reads this
    {
      Cursor(limit, prefix, iter)
    }

    constructor (c: Cursor)
      ensures Value() == c
    {
      limit, prefix, iter := c.limit, c.prefix, c.iter;
    }
  }

  /** The framework's page: the objects gathered so far and the cursor
      state the producer reads and advances. */
  class ObjectPage {
    var data: seq<Object>
    const status: PageStatus

    constructor (status: PageStatus)
      ensures this.status == status && data == []
    {
      this.status := status;
      data := [];
    }
  }

  /** `nextObjectPageByDir`: asks for one level below the cursor's prefix,
      appends one object per record in arrival order, then finishes on the
      end token or moves the cursor to the returned token. The outcome is the
      producer's own return value; the bucket's error, which the source
      writes into the same result from its worker goroutine, is not part of
      it. */
  method NextObjectPageByDir(s: Storage, page: ObjectPage, bucket: ListRequest -> ListResponse)
    returns (r: Step)
    modifies page, page.status
    ensures var resp := bucket(Request(old(page.status.Value()), ByDir));
      && page.data == old(page.data) + DirPage(s, resp.records)
      && page.status.Value() == Advance(old(page.status.Value()), resp.nextIter)
      && r == Outcome(resp.nextIter)
  {
    var input := page.status;
    var header := map[HeaderListLimit := input.limit, HeaderListIter := input.iter];
    var resp := bucket(ListRequest(input.prefix, 1, header));
    header := header[HeaderListIter := resp.nextIter];

    for i := 0 to |resp.records|
      invariant page.data == old(page.data) + DirPage(s, resp.records[..i])
      invariant input.Value() == old(input.Value())
    {
      var v := resp.records[i];
      assert resp.records[..i + 1][..i] == resp.records[..i];
      if v.isDir {
        var o := DirObject(s, v);
        page.data := page.data + [o];
        continue;
      }
      var o := FormatFileObject(s, v);
      page.data := page.data + [o];
    }
    assert resp.records[..|resp.records|] == resp.records;

    if header[HeaderListIter] == IterEnd {
      return IterateDone;
    }
    input.iter := header[HeaderListIter];
    return More;
  }

  /** `nextObjectPageByPrefix`: asks for everything under the cursor's
      prefix, appends a file object per file record in arrival order and
      skips directory records, then finishes on the end token or moves the
      cursor to the returned token. As for the directory producer, the
      outcome does not depend on the bucket's error. */
  method NextObjectPageByPrefix(s: Storage, page: ObjectPage, bucket: ListRequest -> ListResponse)
    returns (r: Step)
    modifies page, page.status
    ensures var resp := bucket(Request(old(page.status.Value()), ByPrefix));
      && page.data == old(page.data) + PrefixPage(s, resp.records)
      && page.status.Value() == Advance(old(page.status.Value()), resp.nextIter)
      && r == Outcome(resp.nextIter)
  {
    var input := page.status;
    var header := map[HeaderListLimit := input.limit, HeaderListIter := input.iter];
    var resp := bucket(ListRequest(input.prefix, -1, header));
    header := header[HeaderListIter := resp.nextIter];

    for i := 0 to |resp.records|
      invariant page.data == old(page.data) + PrefixPage(s, resp.records[..i])
      invariant input.Value() == old(input.Value())
    {
      var v := resp.records[i];
      assert resp.records[..i + 1][..i] == resp.records[..i];
      if v.isDir {
        continue;
      }
      var o := FormatFileObject(s, v);
      page.data := page.data + [o];
    }
    assert resp.records[..|resp.records|] == resp.records;

    if header[HeaderListIter] == IterEnd {
      return IterateDone;
    }
    input.iter := header[HeaderListIter];
    return More;
  }
}
