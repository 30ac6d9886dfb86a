/**
 The S3 backend over a provider that keeps blobs, checksums and multipart
 uploads.  The class runs `s3.go`'s loops; its contracts tie them to the
 storage calls that the lifecycle machine takes as atomic steps.
 */
module S3Store {
  import opened Wrappers
  import opened Content
  import opened Table
  import opened Storage
  import opened Protocol
  import opened PartListing
  import Encoding

  datatype Completion = Assembled | NoSuchUpload | NotArrived | WrongSize

  /** What completing an upload comes to, given the upload if it is open at that key. */
  function CompletionOf(open: Option<Upload>, size: int): Completion {
    if open.None? then NoSuchUpload
    else
      var parts := open.value.parts;
      AscendingInParts(parts, 0);
      if Ascending(parts, 0) == [] then NotArrived
      else if |Concat(parts, Ascending(parts, 0))| != size then WrongSize
      else Completion.Assembled
  }

  /**
   After a wrong total the upload is as it was, so adding the missing part - and
   only a part of exactly the missing length - lets the retry succeed.
   */
  lemma RetryWithMissingPart(open: Upload, size: int, number: int, part: Part)
    requires CompletionOf(Some(open), size).WrongSize? || CompletionOf(Some(open), size).NotArrived?
    requires 1 <= number <= MAX_PARTS && number !in open.parts
    ensures var retry := CompletionOf(Some(open.(parts := open.parts[number := part])), size);
            AllIn(open.parts, Ascending(open.parts, 0))
            && (retry.Assembled? <==> |Concat(open.parts, Ascending(open.parts, 0))| + |part.body| == size)
            && (retry.Assembled? || retry.WrongSize?)
  {
    AscendingSorted(open.parts, 0);
    AscendingSorted(open.parts[number := part], 0);
    AddedPart(open.parts, 0, number, part);
  }

  // ------------------------------------------------------------------- listings

  /** One entry of a listing; a provider may leave out when it was last modified. */
  datatype Entry<T> = Entry(item: T, modified: Option<Time>)

  function Before<T>(entries: seq<Entry<T>>, cutoff: Time): seq<T> {
    if entries == [] then []
    else
      var last := entries[|entries| - 1];
      Before(entries[..|entries| - 1], cutoff)
      + if last.modified.Some? && last.modified.value < cutoff then [last.item] else []
  }

  /** All entries of a listing, unless some page failed. */
  function AllPages<T>(pages: seq<Option<seq<Entry<T>>>>): Option<seq<Entry<T>>> {
    if pages == [] then Some([])
    else
      var front := AllPages(pages[..|pages| - 1]);
      var last := pages[|pages| - 1];
      if front.Some? && last.Some? then Some(front.value + last.value) else None
  }

  lemma {:induction false} FailedPage<T>(pages: seq<Option<seq<Entry<T>>>>, i: nat)
    requires i < |pages| && pages[i].None?
    ensures AllPages(pages).None?
  {
    if i < |pages| - 1 {
      FailedPage(pages[..|pages| - 1], i);
    }
  }

  /** This entry carries the item, and a time before the cutoff. */
  predicate IsOld<T(==)>(entry: Entry<T>, item: T, cutoff: Time) {
    entry.item == item && match entry.modified case Some(at) => at < cutoff case None => false
  }

  lemma {:induction false} BeforeExactly<T>(entries: seq<Entry<T>>, item: T, cutoff: Time)
    ensures item in Before(entries, cutoff) <==> exists e | e in entries :: IsOld(e, item, cutoff)
  {
    if entries != [] {
      var front, last := entries[..|entries| - 1], entries[|entries| - 1];
      BeforeExactly(front, item, cutoff);
      assert entries == front + [last];
      assert forall e :: e in entries <==> e in front || e == last;
      assert IsOld(last, item, cutoff) <==> last.modified.Some? && last.modified.value < cutoff && last.item == item;
    }
  }

  lemma {:induction false} AllPagesExactly<T>(pages: seq<Option<seq<Entry<T>>>>, e: Entry<T>)
    ensures AllPages(pages).Some? <==> forall p | 0 <= p < |pages| :: pages[p].Some?
    ensures AllPages(pages).Some? ==>
              (e in AllPages(pages).value <==> exists p :: 0 <= p < |pages| && e in pages[p].value)
  {
    if pages != [] {
      var front := pages[..|pages| - 1];
      AllPagesExactly(front, e);
      assert forall p | 0 <= p < |front| :: front[p] == pages[p];
    }
  }

  /** What a listing must report: every item that some page shows as old, and no other. */
  lemma ListsOld<T>(pages: seq<Option<seq<Entry<T>>>>, item: T, cutoff: Time)
    requires forall p | 0 <= p < |pages| :: pages[p].Some?
    ensures AllPages(pages).Some?
    ensures item in Before(AllPages(pages).value, cutoff)
            <==> exists p, e :: 0 <= p < |pages| && e in pages[p].value && IsOld(e, item, cutoff)
  {
    hide AllPages, Before, IsOld;
    AllPagesExactly(pages, Entry(item, None));
    BeforeExactly(AllPages(pages).value, item, cutoff);
    if item in Before(AllPages(pages).value, cutoff) {
      var e :| e in AllPages(pages).value && IsOld(e, item, cutoff);
      AllPagesExactly(pages, e);
    }
    forall p, e | 0 <= p < |pages| && e in pages[p].value && IsOld(e, item, cutoff)
      ensures item in Before(AllPages(pages).value, cutoff)
    {
      AllPagesExactly(pages, e);
    }
  }

  /**
   `expiredObjects` and `expiredUploads`: the entries before the cutoff, however
   the provider cuts its pages, and nothing at all once a page failed.
   */
  method Expired<T>(pages: seq<Option<seq<Entry<T>>>>, cutoff: Time) returns (r: Option<seq<T>>)
    ensures r == if AllPages(pages).Some? then Some(Before(AllPages(pages).value, cutoff)) else None
    ensures r.None? <==> exists p :: 0 <= p < |pages| && pages[p].None?
    ensures r.Some? ==>
              forall item ::
                item in r.value
                <==> exists p, e :: 0 <= p < |pages| && e in pages[p].value && IsOld(e, item, cutoff)
  {
    var items: seq<T> := [];
    for p := 0 to |pages|
      invariant forall q | 0 <= q < p :: pages[q].Some?
      invariant AllPages(pages[..p]).Some? && items == Before(AllPages(pages[..p]).value, cutoff)
    {
      assert pages[..p + 1][..p] == pages[..p];
      if pages[p].None? {
        FailedPage(pages, p);
        return None;
      }
      var page := pages[p].value;
      ghost var seen := AllPages(pages[..p]).value;
      assert seen + page[..0] == seen;
      for i := 0 to |page|
        invariant items == Before(seen + page[..i], cutoff)
      {
        assert (seen + page[..i + 1])[..|seen| + i] == seen + page[..i];
        if page[i].modified.Some? && page[i].modified.value < cutoff {
          items := items + [page[i].item];
        }
      }
      assert seen + page[..|page|] == AllPages(pages[..p + 1]).value;
    }
    assert pages[..|pages|] == pages;
    forall item
      ensures item in items <==> exists p, e :: 0 <= p < |pages| && e in pages[p].value && IsOld(e, item, cutoff)
    {
      ListsOld(pages, item, cutoff);
    }
    return Some(items);
  }

  // ------------------------------------------------------------------- the store

  class Store {
    const env: Env
    var objects: map<string, Blob>
    var uploads: map<string, Upload>
    var now: Time

    ghost predicate Valid()
      reads this
    {
      && env.kind.S3Kind? && DigestLaw(env.sha, env.crc, env.detect)
      && (forall key | key in objects :: DigestsValid(objects[key]))
      && (forall u | u in uploads :: NumbersValid(uploads[u].parts))
    }

    static ghost predicate DigestsValid(blob: Blob) {
      (blob.sha.Some? ==> IsLowerHex(blob.sha.value, 64)) && (blob.crc.Some? ==> IsLowerHex(blob.crc.value, 16))
    }

    static ghost predicate NumbersValid(parts: map<int, Part>) {
      forall n | n in parts :: 1 <= n <= MAX_PARTS
    }

    constructor (env: Env)
      requires env.kind.S3Kind? && DigestLaw(env.sha, env.crc, env.detect)
      ensures Valid() && this.env == env && objects == map[] && uploads == map[]
    {
      this.env := env;
      objects, uploads, now := map[], map[], 0;
    }

    /** The upload open at this key under this identifier. */
    function Open(key: string, upload: string): Option<Upload>
      reads this
    {
      if upload in uploads && uploads[upload].key == key then Some(uploads[upload]) else None
    }

    /** The provider's PUT: it rejects a body that does not match the signed headers. */
    method PutObject(key: string, body: Bytes, length: Option<int>, shaHeader: string) returns (ok: bool)
      requires Valid()
      modifies this`objects
      ensures Valid()
      ensures ok <==> (length.Some? ==> |body| == length.value) && Encoding.Base64Digest(env.sha(body)) == shaHeader
      ensures objects == if ok then old(objects)[key := PutBlob(env, body, now)] else old(objects)
    {
      ok := (length.None? || |body| == length.value) && Encoding.Base64Digest(env.sha(body)) == shaHeader;
      if ok {
        objects := objects[key := PutBlob(env, body, now)];
      }
    }

    /** `Put`: stores the body exactly if it has the declared SHA-256. */
    method Put(key: string, body: Bytes, content: Declaration) returns (ok: bool)
      requires Valid() && content.Valid()
      modifies this`objects
      ensures Valid()
      ensures ok <==> env.sha(body) == content.sha
      ensures objects == if ok then old(objects)[key := PutBlob(env, body, now)] else old(objects)
    {
      Encoding.Base64DigestInjective(env.sha(body), content.sha, 32);
      ok := PutObject(key, body, None, Encoding.Base64Digest(content.sha));
    }

    /** An uploader using the target that `PresignPut` signed for a declaration. */
    method UseTarget(key: string, content: Declaration, body: Bytes) returns (ok: bool)
      requires Valid() && content.Valid()
      modifies this`objects
      ensures Valid()
      ensures ok <==> Admits(env, content.size, content.sha, body)
      ensures objects == if ok then old(objects)[key := PutBlob(env, body, now)] else old(objects)
    {
      Encoding.Base64DigestInjective(env.sha(body), content.sha, 32);
      ok := PutObject(key, body, Some(content.size), Encoding.Base64Digest(content.sha));
    }

    method Delete(key: string)
      requires Valid()
      modifies this`objects
      ensures Valid() && objects == old(objects) - {key}
    {
      objects := objects - {key};
    }

    /** One page of `ListParts`: at least one part, unless none is left. */
    method ListParts(key: string, upload: string, marker: int, pageSize: nat)
      returns (page: Option<seq<NamedPart>>, more: bool)
      requires 0 <= marker <= MAX_PARTS
      ensures page.None? <==> Open(key, upload).None?
      ensures page.Some? ==>
                var parts := uploads[upload].parts;
                var numbers := Page(parts, marker, pageSize);
                && AllIn(parts, numbers) && page.value == Named(env, parts, numbers)
                && (more <==> |numbers| < |Ascending(parts, marker)|)
    {
      page, more := None, false;
      if upload in uploads && uploads[upload].key == key {
        var parts := uploads[upload].parts;
        PageInParts(parts, marker, pageSize);
        var numbers := Page(parts, marker, pageSize);
        page := Some(Named(env, parts, numbers));
        more := |numbers| < |Ascending(parts, marker)|;
      }
    }

    /** The listing loop: every part, in ascending order, whatever the page sizes. */
    method ListAllParts(key: string, upload: string, pageSize: nat -> nat)
      returns (found: bool, parts: seq<NamedPart>, total: int)
      ensures found <==> Open(key, upload).Some?
      ensures found ==>
                var held := uploads[upload].parts;
                && AllIn(held, Ascending(held, 0)) && parts == Named(env, held, Ascending(held, 0))
                && total == TotalSize(parts)
    {
      hide Ascending, Page, TotalSize, Concat, Valid, Named;
      ghost var held := if Open(key, upload).Some? then uploads[upload].parts else map[];
      ghost var seen: seq<int> := [];
      var marker, pages, more := 0, 0, true;
      parts, total := [], 0;
      NothingNamed(env, held);
      while more
        invariant 0 <= marker <= MAX_PARTS && (seen != [] || !more ==> Open(key, upload).Some?)
        invariant AllIn(held, seen) && parts == Named(env, held, seen) && total == TotalSize(parts)
        invariant if more then seen + Ascending(held, marker) == Ascending(held, 0) else seen == Ascending(held, 0)
        modifies {}
        decreases more, MAX_PARTS - marker
      {
        var page;
        page, more := ListParts(key, upload, marker, pageSize(pages));
        if page.None? {
          return false, [], 0;
        }
        ghost var numbers := Page(held, marker, pageSize(pages));
        PageInParts(held, marker, pageSize(pages));
        PageResumes(held, marker, pageSize(pages));
        NamedAppend(env, held, seen, numbers);
        parts, total := AppendPage(parts, total, page.value);
        if more {
          NamedLast(env, held, numbers);
          assert seen + numbers + Ascending(held, numbers[|numbers| - 1])
                 == seen + (numbers + Ascending(held, numbers[|numbers| - 1]));
          marker := page.value[|page.value| - 1].number;
        }
        seen, pages := seen + numbers, pages + 1;
      }
      return true, parts, total;
    }

    static lemma NothingNamed(env: Env, held: map<int, Part>)
      ensures Named(env, held, []) == [] && TotalSize([]) == 0
    {
    }

    static lemma NamedLast(env: Env, held: map<int, Part>, numbers: seq<int>)
      requires AllIn(held, numbers) && numbers != []
      ensures var named := Named(env, held, numbers);
              |named| == |numbers| && named[|named| - 1].number == numbers[|numbers| - 1]
    {
    }

    /**
     Names every part the provider lists and completes the upload if they total
     the declared size.  The outcome and the assembled blob do not depend on the
     page sizes; any other outcome leaves storage as it was.
     */
    method CompleteMultipartUpload(key: string, upload: string, sizeBytes: int, pageSize: nat -> nat)
      returns (r: Completion)
      requires Valid()
      modifies this`objects, this`uploads
      ensures Valid()
      ensures r == CompletionOf(old(Open(key, upload)), sizeBytes)
      ensures r.Assembled? ==>
                var open := old(uploads[upload]);
                && AllIn(open.parts, Ascending(open.parts, 0))
                && Completes(env, open.parts, Named(env, open.parts, Ascending(open.parts, 0)))
                && objects == old(objects)[key :=
                     Storage.Assembled(env, upload, open, Named(env, open.parts, Ascending(open.parts, 0)), now)]
                && |objects[key].body| == sizeBytes
                && uploads == old(uploads) - {upload}
      ensures !r.Assembled? ==> objects == old(objects) && uploads == old(uploads)
    {
      hide Ascending, TotalSize, Concat, Completes;
      var found, parts, total := ListAllParts(key, upload, pageSize);
      if !found {
        return NoSuchUpload;
      }
      TotalIsLength(env, uploads[upload].parts, Ascending(uploads[upload].parts, 0));
      if |parts| == 0 {
        return NotArrived;
      }
      if total != sizeBytes {
        return WrongSize;
      }
      ListingCompletes(env, uploads[upload].parts);
      objects := objects[key := Storage.Assembled(env, upload, uploads[upload], parts, now)];
      uploads := uploads - {upload};
      return Completion.Assembled;
    }

    static method AppendPage(parts: seq<NamedPart>, total: int, page: seq<NamedPart>)
      returns (all: seq<NamedPart>, sum: int)
      requires total == TotalSize(parts)
      ensures all == parts + page && sum == TotalSize(all)
    {
      all, sum := parts, total;
      for i := 0 to |page|
        invariant all == parts + page[..i] && sum == TotalSize(all)
      {
        sum := sum + page[i].size;
        all := all + [page[i]];
      }
    }

    method AbortMultipartUpload(key: string, upload: string) returns (found: bool)
      requires Valid()
      modifies this`uploads
      ensures Valid()
      ensures found == old(Open(key, upload).Some?)
      ensures uploads == if found then old(uploads) - {upload} else old(uploads)
    {
      found := Open(key, upload).Some?;
      if found {
        uploads := uploads - {upload};
      }
    }

    /** A stored checksum as the provider's response header; empty when it has none. */
    static function Header(digest: Option<string>): string {
      if digest.None? then "" else Encoding.Base64Digest(digest.value)
    }

    /**
     Compares the headers of a stored blob with the declaration's: the encoded
     comparison decides exactly what the digests themselves decide.
     */
    method Verify(key: string, content: Declaration) returns (r: Verdict)
      requires Valid() && content.Valid()
      ensures r == Storage.Verify(env, objects, key, content)
      ensures r.Missing? <==> key !in objects
      ensures key in objects ==>
                var blob := objects[key];
                var digests := [(blob.sha, content.sha), (blob.crc, content.crc)];
                var differs := |blob.body| != content.size
                               || (!blob.composite && exists d | d in digests :: d.0.Some? && d.0.value != d.1);
                && (r.Mismatch? <==> differs)
                && (r.Verified? <==> !differs && !blob.composite && exists d | d in digests :: d.0.Some?)
    {
      hide Encoding.Base64Digest, IsLowerHex;
      if key !in objects {
        return Missing;
      }
      var blob := objects[key];
      HeaderDecides(blob.sha, content.sha, 32);
      HeaderDecides(blob.crc, content.crc, 8);
      if |blob.body| != content.size {
        return Mismatch;
      }
      var verified := false;
      if !blob.composite {
        var checks := [(Header(blob.sha), Encoding.Base64Digest(content.sha)),
                       (Header(blob.crc), Encoding.Base64Digest(content.crc))];
        for i := 0 to |checks|
          invariant verified <==> exists j | 0 <= j < i :: checks[j].0 != ""
          invariant forall j | 0 <= j < i :: checks[j].0 == "" || checks[j].0 == checks[j].1
        {
          if checks[i].0 != "" {
            if checks[i].0 != checks[i].1 {
              assert checks[0] == (Header(blob.sha), Encoding.Base64Digest(content.sha));
              return Mismatch;
            }
            verified := true;
          }
        }
        assert verified <==> checks[0].0 != "" || checks[1].0 != "";
        assert checks[0].0 == "" || checks[0].0 == checks[0].1;
        assert checks[1].0 == "" || checks[1].0 == checks[1].1;
      }
      return if verified then Verified else Unvouched;
    }

    static lemma HeaderDecides(stored: Option<string>, declared: string, pairs: nat)
      requires pairs > 0 && IsLowerHex(declared, 2 * pairs) && (stored.Some? ==> IsLowerHex(stored.value, 2 * pairs))
      ensures Header(stored) == "" <==> stored.None?
      ensures stored.Some? ==> (Header(stored) == Encoding.Base64Digest(declared) <==> stored.value == declared)
    {
      if stored.Some? {
        Encoding.Base64DigestInjective(stored.value, declared, pairs);
      }
    }
  }
}
