// The movie download-link message: files from the link provider's
// quality buckets, listed in a fixed quality order, each as a Markdown
// link; the text is then cut into pieces of at most 4000 characters.

module DownloadLinks {
  import opened JsText

  /** One file of a quality bucket. `messageId` None is a missing `message_id`. */
  datatype FileEntry = FileEntry(fileSize: int, messageId: Option<int>)

  /** The provider's `qualities` object: quality label to its files. */
  type Qualities = map<string, seq<FileEntry>>

  /** A file chosen for the message, with the quality it was listed under. */
  datatype Listing = Listing(quality: string, file: FileEntry)

  /** The buckets read, in this order; any other bucket (such as "360p") is never read. */
  const QualityOrder: seq<string> := ["2160p", "1440p", "1080p", "720p", "480p", "unsorted"]

  const MaxChunk := 4000
  const LinksHeader := "*Download Links:*\n\n"
  const LinkTarget := "https://t.me/Phonofilmbot?start="

  /** `file.message_id` is truthy. */
  predicate HasMessage(f: FileEntry) {
    f.messageId.Some? && f.messageId.value != 0
  }

  /** `qualities[quality] || []`. */
  function FilesOf(q: Qualities, quality: string): seq<FileEntry> {
    if quality in q then q[quality] else []
  }

  /** Position of a quality in QualityOrder; 6 for a bucket that is never read. */
  function Rank(quality: string): nat {
    if quality == "2160p" then 0
    else if quality == "1440p" then 1
    else if quality == "1080p" then 2
    else if quality == "720p" then 3
    else if quality == "480p" then 4
    else if quality == "unsorted" then 5
    else 6
  }

  /** Every listing is of the given quality and has a message id. */
  predicate AllOf(ls: seq<Listing>, quality: string) {
    forall k :: 0 <= k < |ls| ==> ls[k].quality == quality && HasMessage(ls[k].file)
  }

  /** Every listing ranks below n and has a message id. */
  predicate AllRankedBelow(ls: seq<Listing>, n: nat) {
    forall k :: 0 <= k < |ls| ==> Rank(ls[k].quality) < n && HasMessage(ls[k].file)
  }

  /** The files of one bucket that have a message id, in bucket order. */
  function Group(quality: string, files: seq<FileEntry>): (r: seq<Listing>)
    ensures |r| <= |files|
    ensures AllOf(r, quality)
  {
    if |files| == 0 then []
    else
      var last := files[|files| - 1];
      Group(quality, files[..|files| - 1]) + (if HasMessage(last) then [Listing(quality, last)] else [])
  }

  /** The listings of the first n buckets of QualityOrder. */
  function ListedUpTo(q: Qualities, n: nat): (r: seq<Listing>)
    requires n <= |QualityOrder|
    ensures AllRankedBelow(r, n)
  {
    if n == 0 then []
    else ListedUpTo(q, n - 1) + Group(QualityOrder[n - 1], FilesOf(q, QualityOrder[n - 1]))
  }

  /** Every file listed for the download message, in message order. */
  function Listed(q: Qualities): seq<Listing> {
    ListedUpTo(q, |QualityOrder|)
  }

  /** `${file.message_id}`. */
  function RenderId(id: Option<int>): string {
    match id
    case Some(m) => IntToDecimal(m)
    case None => "undefined"
  }

  /** One line of the message: `[quality (size)](link)`; the size text comes from the byte formatter. */
  function LinkText(l: Listing, formatSize: int -> string): string {
    var head := "[" + l.quality;
    var middle := " (" + formatSize(l.file.fileSize) + ")](";
    var target := LinkTarget + RenderId(l.file.messageId) + ")";
    head + middle + target
  }

  /**
   * A link line names its quality first, then the formatted size in
   * parentheses and the opening of the link, and, for a file with a
   * message id, ends with the start link carrying that id.
   */
  lemma LinkTextShape(l: Listing, formatSize: int -> string)
    ensures var r := LinkText(l, formatSize);
      && |r| > |l.quality| + 1 && r[..|l.quality| + 1] == "[" + l.quality
      && (HasMessage(l.file) ==>
            var target := LinkTarget + IntToDecimal(l.file.messageId.value) + ")";
            && |r| >= |l.quality| + 1 + |target|
            && r[|r| - |target|..] == target
            && r[|l.quality| + 1..|r| - |target|] == " (" + formatSize(l.file.fileSize) + ")](")
  {
    var head := "[" + l.quality;
    var middle := " (" + formatSize(l.file.fileSize) + ")](";
    var target := LinkTarget + RenderId(l.file.messageId) + ")";
    ThreeParts(head, middle, target);
  }

  /** The three parts of a concatenation are its slices. */
  lemma ThreeParts(head: string, middle: string, target: string)
    ensures var r := head + middle + target;
      && r[..|head|] == head
      && r[|head|..|r| - |target|] == middle
      && r[|r| - |target|..] == target
  {
  }

  function LinkTexts(ls: seq<Listing>, formatSize: int -> string): (r: seq<string>)
    ensures |r| == |ls|
  {
    seq(|ls|, k requires 0 <= k < |ls| => LinkText(ls[k], formatSize))
  }

  /**
   * The nested loop of the link handler: walks the quality buckets in
   * order and, within each, the files in order, adding a line for each
   * file that has a message id.
   */
  method BuildLinks(q: Qualities, formatSize: int -> string) returns (links: seq<string>)
    ensures links == LinkTexts(Listed(q), formatSize)
  {
    links := [];
    for i := 0 to |QualityOrder|
      invariant links == LinkTexts(ListedUpTo(q, i), formatSize)
    {
      var quality := QualityOrder[i];
      ghost var before := ListedUpTo(q, i);
      links := AddBucketLinks(links, quality, FilesOf(q, quality), formatSize);
      LinkTextsAppend(before, Group(quality, FilesOf(q, quality)), formatSize);
    }
  }

  /** The inner loop: one line per file of the bucket that has a message id, appended in bucket order. */
  method AddBucketLinks(links: seq<string>, quality: string, files: seq<FileEntry>, formatSize: int -> string)
    returns (out: seq<string>)
    ensures out == links + LinkTexts(Group(quality, files), formatSize)
  {
    out := links;
    for j := 0 to |files|
      invariant out == links + LinkTexts(Group(quality, files[..j]), formatSize)
    {
      var file := files[j];
      ghost var before := LinkTexts(Group(quality, files[..j]), formatSize);
      BucketLinksStep(quality, files, j, formatSize);
      if HasMessage(file) {
        var line := LinkText(Listing(quality, file), formatSize);
        out := out + [line];
        assert out == links + (before + [line]);
      }
    }
    assert files[..|files|] == files;
  }

  /** One more file of a bucket adds its line at the end, if it has a message id. */
  lemma BucketLinksStep(quality: string, files: seq<FileEntry>, j: nat, formatSize: int -> string)
    requires j < |files|
    ensures LinkTexts(Group(quality, files[..j + 1]), formatSize) ==
      LinkTexts(Group(quality, files[..j]), formatSize)
      + (if HasMessage(files[j]) then [LinkText(Listing(quality, files[j]), formatSize)] else [])
  {
    GroupStep(quality, files, j);
    if HasMessage(files[j]) {
      LinkTextsStep(Group(quality, files[..j]), Listing(quality, files[j]), formatSize);
    } else {
      assert Group(quality, files[..j + 1]) == Group(quality, files[..j]);
    }
  }

  lemma LinkTextsAppend(a: seq<Listing>, b: seq<Listing>, formatSize: int -> string)
    ensures LinkTexts(a + b, formatSize) == LinkTexts(a, formatSize) + LinkTexts(b, formatSize)
  {
  }

  /** One more file of a bucket adds its listing at the end, if it has a message id. */
  lemma GroupStep(quality: string, files: seq<FileEntry>, j: nat)
    requires j < |files|
    ensures Group(quality, files[..j + 1]) ==
      Group(quality, files[..j]) + (if HasMessage(files[j]) then [Listing(quality, files[j])] else [])
  {
    assert files[..j + 1][..j] == files[..j];
  }

  lemma LinkTextsStep(ls: seq<Listing>, l: Listing, formatSize: int -> string)
    ensures LinkTexts(ls + [l], formatSize) == LinkTexts(ls, formatSize) + [LinkText(l, formatSize)]
  {
  }

  // ----- properties of the listing -----

  /** A bucket's listings, taken over a concatenation of files, are the two parts' listings in turn. */
  lemma {:induction false} GroupAppend(quality: string, a: seq<FileEntry>, b: seq<FileEntry>)
    ensures Group(quality, a + b) == Group(quality, a) + Group(quality, b)
    decreases |b|
  {
    if |b| == 0 {
      assert a + b == a;
    } else {
      assert (a + b)[..|a + b| - 1] == a + b[..|b| - 1];
      GroupAppend(quality, a, b[..|b| - 1]);
    }
  }

  /** A file is listed under a bucket exactly when it is in that bucket and has a message id. */
  lemma {:induction false} GroupMembership(quality: string, files: seq<FileEntry>, f: FileEntry)
    ensures Listing(quality, f) in Group(quality, files) <==> f in files && HasMessage(f)
  {
    if |files| > 0 {
      GroupMembership(quality, files[..|files| - 1], f);
      assert files == files[..|files| - 1] + [files[|files| - 1]];
    }
  }

  /** Membership in the first n buckets' listings. */
  lemma {:induction false} ListedUpToMembership(q: Qualities, n: nat, quality: string, f: FileEntry)
    requires n <= |QualityOrder|
    ensures Listing(quality, f) in ListedUpTo(q, n) <==>
      (exists k :: 0 <= k < n && QualityOrder[k] == quality) && f in FilesOf(q, quality) && HasMessage(f)
  {
    if n > 0 {
      var last := QualityOrder[n - 1];
      var g := Group(last, FilesOf(q, last));
      assert ListedUpTo(q, n) == ListedUpTo(q, n - 1) + g;
      ListedUpToMembership(q, n - 1, quality, f);
      GroupMembership(last, FilesOf(q, last), f);
      if quality == last {
        assert QualityOrder[n - 1] == quality;
      } else {
        assert Listing(quality, f) !in g;
        assert (exists k :: 0 <= k < n && QualityOrder[k] == quality) ==>
          (exists k :: 0 <= k < n - 1 && QualityOrder[k] == quality);
      }
    }
  }

  /** A file appears in the download message exactly when its bucket is one of the six read and it has a message id. */
  lemma ListedMembership(q: Qualities, quality: string, f: FileEntry)
    ensures Listing(quality, f) in Listed(q) <==> quality in QualityOrder && f in FilesOf(q, quality) && HasMessage(f)
  {
    ListedUpToMembership(q, |QualityOrder|, quality, f);
    if quality in QualityOrder {
      var k :| 0 <= k < |QualityOrder| && QualityOrder[k] == quality;
    }
  }

  /** Listings never go down in quality order: a better bucket's files all come first. */
  predicate RankOrdered(r: seq<Listing>) {
    forall i, j :: 0 <= i < j < |r| ==> Rank(r[i].quality) <= Rank(r[j].quality)
  }

  lemma {:induction false} ListedUpToOrdered(q: Qualities, n: nat)
    requires n <= |QualityOrder|
    ensures RankOrdered(ListedUpTo(q, n))
  {
    if n > 0 {
      ListedUpToOrdered(q, n - 1);
      var quality := QualityOrder[n - 1];
      assert Rank(quality) == n - 1;
      var prev := ListedUpTo(q, n - 1);
      var group := Group(quality, FilesOf(q, quality));
      var r := prev + group;
      forall i, j | 0 <= i < j < |r| ensures Rank(r[i].quality) <= Rank(r[j].quality) {
        if j < |prev| {
          assert r[i] == prev[i] && r[j] == prev[j];
          assert Rank(prev[i].quality) <= Rank(prev[j].quality);
        } else if i < |prev| {
          assert r[i] == prev[i] && r[j] == group[j - |prev|];
          assert Rank(prev[i].quality) < n - 1;
          assert group[j - |prev|].quality == quality;
        } else {
          assert r[i] == group[i - |prev|] && r[j] == group[j - |prev|];
          assert group[i - |prev|].quality == quality && group[j - |prev|].quality == quality;
        }
      }
    }
  }

  /** The download message lists files best quality first. */
  lemma ListedOrdered(q: Qualities)
    ensures RankOrdered(Listed(q))
  {
    ListedUpToOrdered(q, |QualityOrder|);
    assert Listed(q) == ListedUpTo(q, |QualityOrder|);
  }

  /** The listings of one quality, in the order they appear. */
  function OfQuality(ls: seq<Listing>, quality: string): (r: seq<Listing>)
    ensures |r| <= |ls|
  {
    if |ls| == 0 then []
    else OfQuality(ls[..|ls| - 1], quality) + (if ls[|ls| - 1].quality == quality then [ls[|ls| - 1]] else [])
  }

  lemma {:induction false} OfQualityAppend(a: seq<Listing>, b: seq<Listing>, quality: string)
    ensures OfQuality(a + b, quality) == OfQuality(a, quality) + OfQuality(b, quality)
    decreases |b|
  {
    if |b| == 0 {
      assert a + b == a;
    } else {
      assert (a + b)[..|a + b| - 1] == a + b[..|b| - 1];
      OfQualityAppend(a, b[..|b| - 1], quality);
    }
  }

  lemma {:induction false} OfQualityGroup(bucket: string, files: seq<FileEntry>, quality: string)
    ensures OfQuality(Group(bucket, files), quality) == if bucket == quality then Group(bucket, files) else []
    decreases |files|
  {
    if |files| > 0 {
      var last := files[|files| - 1];
      var front := Group(bucket, files[..|files| - 1]);
      var tail := if HasMessage(last) then [Listing(bucket, last)] else [];
      OfQualityGroup(bucket, files[..|files| - 1], quality);
      OfQualityAppend(front, tail, quality);
      if HasMessage(last) {
        assert OfQuality(tail, quality) == OfQuality([], quality) + (if bucket == quality then tail else []);
      }
    }
  }

  /** Rank is the position in QualityOrder, and only the six listed buckets rank below 6. */
  lemma RankPosition(m: nat, quality: string)
    requires m < |QualityOrder|
    ensures Rank(QualityOrder[m]) == m
    ensures Rank(quality) == m ==> quality == QualityOrder[m]
  {
    if m == 0 {} else if m == 1 {} else if m == 2 {} else if m == 3 {} else if m == 4 {} else {}
  }

  lemma {:induction false} ListedUpToOfQuality(q: Qualities, n: nat, quality: string)
    requires n <= |QualityOrder|
    ensures OfQuality(ListedUpTo(q, n), quality) == if Rank(quality) < n then Group(quality, FilesOf(q, quality)) else []
  {
    if n > 0 {
      var bucket := QualityOrder[n - 1];
      var prev := ListedUpTo(q, n - 1);
      var group := Group(bucket, FilesOf(q, bucket));
      assert ListedUpTo(q, n) == prev + group;
      ListedUpToOfQuality(q, n - 1, quality);
      OfQualityAppend(prev, group, quality);
      OfQualityGroup(bucket, FilesOf(q, bucket), quality);
      RankPosition(n - 1, quality);
      CombineBuckets(OfQuality(ListedUpTo(q, n), quality), OfQuality(prev, quality), OfQuality(group, quality),
                     Group(quality, FilesOf(q, quality)), group, Rank(quality), n - 1, quality == bucket);
    }
  }

  /** The bookkeeping step of ListedUpToOfQuality, stated over plain sequences. */
  lemma CombineBuckets(all: seq<Listing>, before: seq<Listing>, added: seq<Listing>, wanted: seq<Listing>,
                       group: seq<Listing>, rank: nat, m: nat, same: bool)
    requires all == before + added
    requires before == if rank < m then wanted else []
    requires added == if same then group else []
    requires same <==> rank == m
    requires same ==> group == wanted
    ensures all == if rank < m + 1 then wanted else []
  {
    if rank < m {
      assert before + [] == before;
    } else if rank == m {
      assert [] + group == group;
    } else {
      assert all == [];
    }
  }

  /** The links of one of the six qualities are that bucket's files with a message id, in bucket order. */
  lemma ListedWithinQuality(q: Qualities, quality: string)
    requires quality in QualityOrder
    ensures OfQuality(Listed(q), quality) == Group(quality, FilesOf(q, quality))
  {
    ListedUpToOfQuality(q, |QualityOrder|, quality);
    var m :| 0 <= m < |QualityOrder| && QualityOrder[m] == quality;
    RankPosition(m, quality);
  }

  // ----- cutting the message into chunks -----

  /** `text.match(/[\s\S]{1,n}/g)`: consecutive pieces of n characters, the last one possibly shorter. */
  function Chunks(text: string, n: nat): seq<string>
    requires n > 0
    decreases |text|
  {
    if |text| == 0 then []
    else if |text| <= n then [text]
    else [text[..n]] + Chunks(text[n..], n)
  }

  function Concat(parts: seq<string>): string {
    if |parts| == 0 then "" else parts[0] + Concat(parts[1..])
  }

  /** The chunks put back together are the original text. */
  lemma {:induction false} ChunksConcat(text: string, n: nat)
    requires n > 0
    ensures Concat(Chunks(text, n)) == text
    decreases |text|
  {
    if |text| > n {
      var rest := Chunks(text[n..], n);
      assert Chunks(text, n) == [text[..n]] + rest;
      assert ([text[..n]] + rest)[1..] == rest;
      ChunksConcat(text[n..], n);
      assert text[..n] + text[n..] == text;
    } else if |text| > 0 {
      assert Chunks(text, n) == [text];
      assert [text][1..] == [];
    }
  }

  /** Every chunk has 1 to n characters, and every one but the last exactly n. */
  predicate WellCut(chunks: seq<string>, n: nat) {
    && (forall k :: 0 <= k < |chunks| ==> 1 <= |chunks[k]| <= n)
    && (forall k :: 0 <= k < |chunks| - 1 ==> |chunks[k]| == n)
  }

  lemma {:induction false} ChunksSizes(text: string, n: nat)
    requires n > 0
    ensures WellCut(Chunks(text, n), n)
    decreases |text|
  {
    if |text| > n {
      ChunksSizes(text[n..], n);
      var rest := Chunks(text[n..], n);
      var r := [text[..n]] + rest;
      assert Chunks(text, n) == r;
      forall k | 0 <= k < |r| ensures 1 <= |r[k]| <= n && (k < |r| - 1 ==> |r[k]| == n) {
        if k > 0 {
          assert r[k] == rest[k - 1];
          assert 1 <= |rest[k - 1]| <= n;
          assert k - 1 < |rest| - 1 ==> |rest[k - 1]| == n;
        }
      }
    }
  }

  /**
   * What the link handler sends once the provider has answered: nothing
   * listed gives None (the "no downloadable links" reply); otherwise the
   * header and the lines joined by newlines, cut into 4000-character messages.
   */
  function LinkMessages(links: seq<string>): (r: Option<seq<string>>)
    ensures r.None? <==> links == []
    ensures r.Some? ==> Concat(r.value) == LinksHeader + Join(links, "\n")
    ensures r.Some? ==> |r.value| >= 1 && WellCut(r.value, MaxChunk)
  {
    if |links| == 0 then None
    else
      var text := LinksHeader + Join(links, "\n");
      ChunksConcat(text, MaxChunk);
      ChunksSizes(text, MaxChunk);
      Some(Chunks(text, MaxChunk))
  }
}
