/** What the uploader talks to: a local file that may change between any two reads, and an object
    store that may refuse any call. Their methods pick arbitrary answers (`*`) within the stated
    contracts, so whatever is proved of a caller holds for every behaviour of file and store. */
module ObjectStore {
  import opened Options

  type Bytes = seq<bv8>

  /** The two digests, as hexadecimal strings. */
  datatype Hashes = Hashes(md5: Bytes -> string, sha256: Bytes -> string)

  function Lower(c: char): char { if 'A' <= c <= 'Z' then ((c as int) + 32) as char else c }

  function LowerAll(s: string): string { seq(|s|, i requires 0 <= i < |s| => Lower(s[i])) }

  function TrimQuotes(s: string): string {
    if s != "" && s[0] == '"' then TrimQuotes(s[1..])
    else if s != "" && s[|s| - 1] == '"' then TrimQuotes(s[..|s| - 1])
    else s
  }

  function NormalizeETag(etag: string): string { LowerAll(TrimQuotes(etag)) }

  predicate IsHexDigest(s: string) {
    |s| == 32 && forall c :: c in s ==> '0' <= c <= '9' || 'a' <= c <= 'f'
  }

  predicate ETagIsComparable(etag: string) { IsHexDigest(NormalizeETag(etag)) }

  /** A digest in canonical form survives normalisation, so a plain MD5 ETag compares equal to it. */
  lemma DigestIsNormal(s: string)
    requires IsHexDigest(s)
    ensures NormalizeETag(s) == s && ETagIsComparable(s)
  {
    assert s[0] in s && s[|s| - 1] in s;
    assert TrimQuotes(s) == s;
    forall i | 0 <= i < |s| ensures Lower(s[i]) == s[i] { assert s[i] in s; }
  }

  /** So does one in quotes and capitals. */
  lemma {:induction false} QuotedDigestIsNormal(before: nat, s: string, after: nat)
    requires IsHexDigest(LowerAll(s))
    ensures NormalizeETag(Quotes(before) + s + Quotes(after)) == LowerAll(s)
    ensures ETagIsComparable(Quotes(before) + s + Quotes(after))
    decreases before + after
  {
    var etag := Quotes(before) + s + Quotes(after);
    assert |s| == 32 && LowerAll(s)[0] in LowerAll(s) && LowerAll(s)[31] in LowerAll(s);
    assert s[0] != '"' && s[|s| - 1] != '"';
    if before > 0 {
      assert etag[1..] == Quotes(before - 1) + s + Quotes(after);
      QuotedDigestIsNormal(before - 1, s, after);
    } else if after > 0 {
      assert etag[0] == s[0] && etag[..|etag| - 1] == Quotes(before) + s + Quotes(after - 1);
      QuotedDigestIsNormal(before, s, after - 1);
    } else {
      assert etag == s;
    }
  }

  function Quotes(n: nat): string { seq(n, _ => '"') }

  /** The ETag of a multipart object, with its dash, is not taken for a digest. */
  lemma {:induction false} DashIsNotComparable(etag: string)
    requires '-' in etag
    ensures '-' in TrimQuotes(etag) && !ETagIsComparable(etag)
  {
    if etag[0] == '"' {
      assert etag == [etag[0]] + etag[1..];
      DashIsNotComparable(etag[1..]);
    } else if etag[|etag| - 1] == '"' {
      assert etag == etag[..|etag| - 1] + [etag[|etag| - 1]];
      DashIsNotComparable(etag[..|etag| - 1]);
    } else {
      var i :| 0 <= i < |etag| && etag[i] == '-';
      assert LowerAll(etag)[i] == '-' && LowerAll(etag)[i] in LowerAll(etag);
    }
  }

  datatype Part = Part(bytes: Bytes, etag: string)

  datatype CompletePart = CompletePart(number: int, etag: string)

  datatype Listing = Parts(parts: seq<CompletePart>) | NoSuchUpload | Unavailable

  datatype Read = IoError | Data(bytes: Bytes)

  class LocalFile {
    /** A steady file always holds `content`; any other file may return anything. */
    const steady: bool
    const content: Bytes
    const mtime: int
    /** A readable file never fails a stat or a read. */
    const readable: bool
    /** Whatever a read may ever return. */
    const observable: Bytes -> bool

    ghost predicate Sound() {
      && observable([])
      && (steady ==> forall i, j :: 0 <= i <= j <= |content| ==> observable(content[i..j]))
    }

    constructor (steady: bool, content: Bytes, mtime: int, readable: bool, observable: Bytes -> bool)
    {
      this.steady, this.content, this.mtime := steady, content, mtime;
      this.readable, this.observable := readable, observable;
    }

    method Stat() returns (ok: bool, size: nat, mtime: int)
      ensures steady ==> size == |content| && mtime == this.mtime
      ensures readable ==> ok
    {
      ok, size, mtime := *, *, *;
      if readable { ok := true; }
      if steady { size, mtime := |content|, this.mtime; }
    }

    /** One streaming read of at most `size` bytes; an offset before the file reads from its start. */
    method ReadRange(offset: int, size: nat) returns (r: Read)
      requires Sound()
      ensures r.Data? ==> |r.bytes| <= size && observable(r.bytes)
      ensures steady && r.Data? && 0 <= offset && offset + size <= |content| ==>
                r.bytes == content[offset..offset + size]
      ensures readable ==> r.Data?
    {
      var start := if offset < 0 then 0 else offset;
      r := *;
      if r.Data? && (|r.bytes| > size || !observable(r.bytes)) { r := Data([]); }
      if readable && !r.Data? { r := Data([]); }
      if steady && r.Data? && start + size <= |content| { r := Data(content[start..start + size]); }
    }
  }

  /** The concatenation of the stored bytes of the listed parts, in list order. */
  function Assemble(stored: map<int, Part>, list: seq<CompletePart>): Bytes {
    if list == [] then [] else
    var last := list[|list| - 1];
    Assemble(stored, list[..|list| - 1]) + if last.number in stored then stored[last.number].bytes else []
  }

  /** An upload ID that was never issued. */
  method UnusedId(issued: set<string>) returns (id: string)
    ensures id != "" && id !in issued
  {
    var rest, n := issued, 1;
    while rest != {}
      invariant rest <= issued && n > 0 && forall s :: s in issued - rest ==> |s| < n
      decreases |rest|
    {
      var s :| s in rest;
      if |s| >= n { n := |s| + 1; }
      rest := rest - {s};
    }
    id := seq(n, _ => 'u');
  }

  method ListAll(stored: map<int, Part>) returns (list: seq<CompletePart>)
    ensures forall i :: 0 <= i < |list| ==> list[i].number in stored && list[i].etag == stored[list[i].number].etag
    ensures forall k :: k in stored ==> CompletePart(k, stored[k].etag) in list
  {
    var rest := set k | k in stored;
    list := [];
    while rest != {}
      invariant rest <= stored.Keys
      invariant forall i :: 0 <= i < |list| ==> list[i].number in stored && list[i].etag == stored[list[i].number].etag
      invariant forall k :: k in stored && k !in rest ==> CompletePart(k, stored[k].etag) in list
      decreases |rest|
    {
      assert exists k :: k in rest by { assert (forall k :: k !in rest) ==> rest == {}; }
      var k :| k in rest;
      rest, list := rest - {k}, list + [CompletePart(k, stored[k].etag)];
    }
  }

  class Store {
    const hashes: Hashes
    /** A plain store answers every part with its MD5, and lists every part. */
    const plain: bool
    /** A willing store refuses nothing it can do. */
    const willing: bool
    var uploads: map<string, map<int, Part>>
    var issued: set<string>
    var published: Option<Bytes>
    /** The part calls and the completion list it has seen. */
    var puts: seq<(string, int)>
    var completed: seq<CompletePart>

    constructor (hashes: Hashes, plain: bool, willing: bool)
      ensures this.hashes == hashes && this.plain == plain && this.willing == willing
      ensures uploads == map[] && issued == {} && published == None
    {
      this.hashes, this.plain, this.willing := hashes, plain, willing;
      uploads, issued, published, puts, completed := map[], {}, None, [], [];
    }

    /** A comparable ETag is the MD5 of the stored bytes. */
    ghost predicate Honest()
      reads this
    {
      && (forall b :: IsHexDigest(hashes.md5(b)))
      && uploads.Keys <= issued && "" !in issued
      && (forall u, k :: u in uploads && k in uploads[u] ==> HonestPart(uploads[u][k]))
    }

    ghost predicate HonestPart(part: Part) {
      && (ETagIsComparable(part.etag) ==> NormalizeETag(part.etag) == hashes.md5(part.bytes))
      && (plain ==> ETagIsComparable(part.etag))
    }

    method NewMultipartUpload() returns (r: Option<string>)
      requires Honest()
      modifies this`uploads, this`issued
      ensures Honest()
      ensures r.None? ==> uploads == old(uploads) && issued == old(issued)
      ensures r.Some? ==> r.value != "" && r.value !in old(issued) && issued == old(issued) + {r.value}
      ensures r.Some? ==> uploads == old(uploads)[r.value := map[]]
      ensures willing ==> r.Some?
    {
      var id: string := *;
      if id == "" || id in issued {
        if !willing { return None; }
        id := UnusedId(issued);
      }
      uploads, issued := uploads[id := map[]], issued + {id};
      return Some(id);
    }

    /** A refused part may have been stored all the same. */
    method PutObjectPart(u: string, k: int, body: Bytes) returns (r: Option<string>)
      requires Honest()
      modifies this`uploads, this`puts
      ensures Honest() && puts == old(puts) + [(u, k)]
      ensures uploads == old(uploads) || PartStored(old(uploads), uploads, u, k, body)
      ensures r.Some? ==> PartStored(old(uploads), uploads, u, k, body) && uploads[u][k].etag == r.value
      ensures willing && u in old(uploads) ==> r.Some?
    {
      puts := puts + [(u, k)];
      if u !in uploads { return None; }
      var etag: string, stores: bool, answers: bool := *, *, *;
      if plain || (ETagIsComparable(etag) && NormalizeETag(etag) != hashes.md5(body)) {
        DigestIsNormal(hashes.md5(body));
        etag := hashes.md5(body);
      }
      if willing { answers := true; }
      if !stores && !answers { return None; }
      uploads := uploads[u := uploads[u][k := Part(body, etag)]];
      if !answers { return None; }
      return Some(etag);
    }

    /** A listing may leave parts out unless the store is plain. */
    method ListObjectParts(u: string) returns (r: Listing)
      requires Honest()
      ensures r.Parts? ==> u in uploads
      ensures r.NoSuchUpload? ==> u !in uploads
      ensures r.Parts? ==> forall i :: 0 <= i < |r.parts| ==> Lists(uploads, u, r.parts[i])
      ensures r.Parts? && plain ==> forall k :: k in uploads[u] ==> CompletePart(k, uploads[u][k].etag) in r.parts
      ensures willing ==> !r.Unavailable?
    {
      var list: seq<CompletePart>, answers: bool := *, *;
      if willing {
        if u !in uploads { return NoSuchUpload; }
        list := ListAll(uploads[u]);
        return Parts(list);
      }
      if !answers { return Unavailable; }
      if u !in uploads { return NoSuchUpload; }
      if exists i :: 0 <= i < |list| && !Lists(uploads, u, list[i]) { return Unavailable; }
      if plain && exists k :: k in uploads[u] && CompletePart(k, uploads[u][k].etag) !in list { return Unavailable; }
      return Parts(list);
    }

    /** A refused completion may have been carried out all the same. */
    method CompleteMultipartUpload(u: string, list: seq<CompletePart>) returns (ok: bool)
      requires Honest()
      modifies this`uploads, this`published, this`completed
      ensures Honest()
      ensures ok ==> Completes(old(uploads), u, list) && uploads == old(uploads) - {u}
      ensures ok ==> published == Some(Assemble(old(uploads)[u], list)) && completed == list
      ensures !ok ==> uploads == old(uploads) || uploads == old(uploads) - {u}
      ensures willing && Completes(old(uploads), u, list) ==> ok
    {
      var accepts: bool, answers: bool := *, *;
      if willing { accepts, answers := true, true; }
      if !accepts || u !in uploads || exists i :: 0 <= i < |list| && !Lists(uploads, u, list[i]) { return false; }
      published, completed := Some(Assemble(uploads[u], list)), list;
      uploads := uploads - {u};
      return answers;
    }

    method AbortMultipartUpload(u: string) returns (confirmed: bool)
      requires Honest()
      modifies this`uploads
      ensures Honest()
      ensures confirmed ==> uploads == old(uploads) - {u}
      ensures !confirmed ==> uploads == old(uploads)
      ensures willing ==> confirmed
    {
      confirmed := *;
      if willing { confirmed := true; }
      if confirmed { uploads := uploads - {u}; }
    }

    method PutObject(body: Bytes) returns (r: Option<string>)
      requires Honest()
      modifies this`published
      ensures r.Some? ==> published == Some(body)
      ensures willing ==> r.Some? && (ETagIsComparable(r.value) ==> NormalizeETag(r.value) == hashes.md5(body))
    {
      var etag: string, accepts: bool := *, *;
      if willing {
        accepts := true;
        if ETagIsComparable(etag) && NormalizeETag(etag) != hashes.md5(body) {
          DigestIsNormal(hashes.md5(body));
          etag := hashes.md5(body);
        }
      }
      if !accepts { return None; }
      published := Some(body);
      return Some(etag);
    }
  }

  ghost predicate PartStored(before: map<string, map<int, Part>>, after: map<string, map<int, Part>>, u: string, k: int,
                             body: Bytes) {
    && u in before && u in after && k in after[u] && after[u][k].bytes == body
    && after == before[u := before[u][k := after[u][k]]]
  }

  predicate Lists(uploads: map<string, map<int, Part>>, u: string, p: CompletePart) {
    u in uploads && p.number in uploads[u] && p.etag == uploads[u][p.number].etag
  }

  ghost predicate Completes(uploads: map<string, map<int, Part>>, u: string, list: seq<CompletePart>) {
    u in uploads && forall i :: 0 <= i < |list| ==> Lists(uploads, u, list[i])
  }
}
