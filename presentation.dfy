// How the bot turns a stored search hit into button labels and captions:
// the genre and language tables, genre hashtags, the overview cut at 900
// characters, the year slices, and the fields of the movie and series
// captions. Markdown, emoji and the number formatting of ratings are not
// part of this model; a caption is the record of the texts it shows.

module Presentation {
  import opened JsText
  import opened Records

  /** The fixed TMDB movie genre table the movie caption uses. */
  const GenreNames: map<int, string> := map[
    28 := "Action", 12 := "Adventure", 16 := "Animation", 35 := "Comedy",
    80 := "Crime", 99 := "Documentary", 18 := "Drama", 10751 := "Family",
    14 := "Fantasy", 36 := "History", 27 := "Horror", 10402 := "Music",
    9648 := "Mystery", 10749 := "Romance", 878 := "Sci-Fi", 10770 := "TV Movie",
    53 := "Thriller", 10752 := "War", 37 := "Western"
  ]

  /** Language codes with a name; any other code is shown as it is. */
  const Languages: map<string, string> := map[
    "en" := "english", "fr" := "french", "es" := "spanish", "de" := "german",
    "ja" := "japanese", "ko" := "korean", "zh" := "chinese", "hi" := "hindi"
  ]

  const NoOverview := "No overview available."
  const NoDescription := "No description available."
  const NotAvailable := "N/A"

  // ----- movie genres -----

  /** `#` followed by the lower-cased genre name. */
  function GenreTag(id: int): (r: string)
    requires id in GenreNames
    ensures |r| >= 2 && r[0] == '#'
    ensures r[1..] == ToLowerAscii(GenreNames[id])
  {
    "#" + ToLowerAscii(GenreNames[id])
  }

  /** The tag of one id, or none when the table does not map it: the `map` and `filter(Boolean)` of one element. */
  function TagOf(id: int): seq<string> {
    if id in GenreNames then [GenreTag(id)] else []
  }

  /** Every tag is `#` and at least one more character. */
  predicate AllTagged(tags: seq<string>) {
    forall k :: 0 <= k < |tags| ==> |tags[k]| >= 2 && tags[k][0] == '#'
  }

  /** The tags of the mapped ids, in input order; unmapped ids are dropped. */
  function MappedGenreTags(ids: seq<int>): (r: seq<string>)
    ensures |r| <= |ids|
    ensures AllTagged(r)
  {
    if |ids| == 0 then []
    else TagOf(ids[0]) + MappedGenreTags(ids[1..])
  }

  /** A single id gives its tag when the table maps it, and nothing otherwise. */
  lemma MappedGenreTagsSingle(id: int)
    ensures MappedGenreTags([id]) == if id in GenreNames then [GenreTag(id)] else []
  {
    assert [id][1..] == [];
  }

  /** Tagging a concatenation tags each part in turn: input order is kept. */
  lemma {:induction false} MappedGenreTagsAppend(a: seq<int>, b: seq<int>)
    ensures MappedGenreTags(a + b) == MappedGenreTags(a) + MappedGenreTags(b)
  {
    if |a| == 0 {
      assert a + b == b;
    } else {
      var head := TagOf(a[0]);
      assert (a + b)[0] == a[0] && (a + b)[1..] == a[1..] + b;
      MappedGenreTagsAppend(a[1..], b);
      calc {
        MappedGenreTags(a + b);
        head + MappedGenreTags(a[1..] + b);
        head + (MappedGenreTags(a[1..]) + MappedGenreTags(b));
        (head + MappedGenreTags(a[1..])) + MappedGenreTags(b);
      }
    }
  }

  /** No tag is produced exactly when no id is in the table. */
  lemma {:induction false} MappedGenreTagsEmpty(ids: seq<int>)
    ensures MappedGenreTags(ids) == [] <==> forall i :: 0 <= i < |ids| ==> ids[i] !in GenreNames
  {
    if |ids| > 0 {
      MappedGenreTagsEmpty(ids[1..]);
      assert forall i :: 1 <= i < |ids| ==> ids[i] == ids[1..][i - 1];
    }
  }

  /** The movie caption's genre text: the tags joined by single spaces, or "N/A". */
  function MovieGenreText(ids: seq<int>): (r: string)
    ensures r == NotAvailable <==> forall i :: 0 <= i < |ids| ==> ids[i] !in GenreNames
    ensures r != NotAvailable ==> r == Join(MappedGenreTags(ids), " ") && |r| >= 1 && r[0] == '#'
  {
    var tags := MappedGenreTags(ids);
    MappedGenreTagsEmpty(ids);
    if tags == [] then NotAvailable
    else
      JoinStartsWith(tags, " ", '#');
      Join(tags, " ")
  }

  /** An unmapped id is dropped. */
  lemma UnmappedGenreDropped()
    ensures MovieGenreText([1, 28]) == "#action"
  {
    assert 1 !in GenreNames;
    ActionTag();
    assert [1, 28] == [1] + [28];
    MappedGenreTagsAppend([1], [28]);
    MappedGenreTagsSingle(1);
    MappedGenreTagsSingle(28);
    assert MappedGenreTags([1, 28]) == [GenreTag(28)];
  }

  /** Genre 28 is "Action", tagged `#action`. */
  lemma ActionTag()
    ensures 28 in GenreNames && GenreTag(28) == "#action"
  {
    assert GenreNames[28] == "Action";
    var lowered := ToLowerAscii("Action");
    assert lowered == "action";
    assert GenreTag(28) == "#" + lowered;
    assert "#" + "action" == "#action";
  }

  /** "TV Movie" gives a tag with a space inside it, which reads as two words. */
  lemma TvMovieGenreText()
    ensures MovieGenreText([10770]) == "#tv movie"
  {
    assert ToLowerAscii("TV Movie") == "tv movie";
    assert [10770][1..] == [];
  }

  // ----- language and overview -----

  /** `languages[code] || code`: the table's name when the code has one, else the raw code. */
  function LanguageText(code: Option<string>): (r: string)
    ensures code.Some? && code.value in Languages ==> r == Languages[code.value]
    ensures code.Some? && code.value !in Languages ==> r == code.value
    ensures code.None? ==> r == "undefined"
  {
    match code
    case None => Render(code)
    case Some(c) => if c in Languages then Languages[c] else c
  }

  /** The overview as shown: cut to 900 characters plus "..." when longer, the fallback when missing or empty. */
  function OverviewText(overview: Option<string>): (r: string)
    ensures 0 < |r| <= 903
    ensures Truthy(overview) ==> Prefix(overview.value, 900) <= r
    ensures Truthy(overview) && |overview.value| <= 900 ==> r == overview.value
    ensures Truthy(overview) && |overview.value| > 900 ==> r == overview.value[..900] + "..."
    ensures !Truthy(overview) ==> r == NoOverview
  {
    var shown := if overview.Some? && |overview.value| > 900 then Some(overview.value[..900] + "...") else overview;
    OrElse(shown, NoOverview)
  }

  // ----- button labels and years -----

  /** `item.title || item.name`. */
  function TitleOrName(item: Summary): string {
    if Truthy(item.title) then item.title.value else Render(item.name)
  }

  /** `item.release_date || item.first_air_date || ""`. */
  function DateOrEmpty(item: Summary): string {
    if Truthy(item.releaseDate) then item.releaseDate.value else OrElse(item.firstAirDate, "")
  }

  /** The result button's label: the title (or name), then at most four leading characters of the date in parentheses. */
  function ItemLabel(item: Summary): (r: string)
    ensures var t := TitleOrName(item);
      && |t| + 3 <= |r| <= |t| + 7
      && r[..|t|] == t && r[|t|..|t| + 2] == " (" && r[|r| - 1] == ')'
      && r[|t| + 2..|r| - 1] <= DateOrEmpty(item)
      && |r| == |t| + 3 + (if |DateOrEmpty(item)| < 4 then |DateOrEmpty(item)| else 4)
  {
    TitleOrName(item) + " (" + Prefix(DateOrEmpty(item), 4) + ")"
  }

  /** The series caption's year: at most four leading characters of the first air date, "N/A" when there is none. */
  function SeriesYear(firstAirDate: Option<string>): (r: string)
    ensures !Truthy(firstAirDate) ==> r == NotAvailable
    ensures Truthy(firstAirDate) ==>
      |r| == (if |firstAirDate.value| < 4 then |firstAirDate.value| else 4) && r <= firstAirDate.value
  {
    var y := Prefix(OrElse(firstAirDate, ""), 4);
    if y == "" then NotAvailable else y
  }

  // ----- series caption fields -----

  /** `#` followed by the genre name with its white space removed. */
  function SeriesGenreTags(names: seq<string>): (r: seq<string>)
    ensures |r| == |names|
    ensures forall k :: 0 <= k < |r| ==> |r[k]| >= 1 && r[k][0] == '#' && ' ' !in r[k]
    ensures forall k :: 0 <= k < |r| ==> r[k][1..] == WithoutSpaces(names[k])
  {
    seq(|names|, k requires 0 <= k < |names| => "#" + WithoutSpaces(names[k]))
  }

  /** The series caption's genre text: one tag per genre, recoverable by splitting on spaces; "N/A" for none. */
  function SeriesGenreText(names: seq<string>): (r: string)
    ensures |names| == 0 <==> r == NotAvailable
    ensures |names| > 0 ==> SplitOn(r, ' ') == SeriesGenreTags(names)
  {
    var tags := SeriesGenreTags(names);
    if |tags| == 0 then NotAvailable
    else
      SplitJoinRoundTrip(tags, ' ');
      JoinStartsWith(tags, " ", '#');
      Join(tags, " ")
  }

  /** Countries joined by ", "; "N/A" when that join is empty. */
  function CountriesText(countries: seq<string>): (r: string)
    ensures countries == [] || countries == [""] ==> r == NotAvailable
    ensures countries != [] && countries != [""] ==> r == Join(countries, ", ") && r != ""
  {
    var j := Join(countries, ", ");
    JoinEmpty(countries, ", ");
    if j == "" then NotAvailable else j
  }

  /** The first episode run time in minutes, "N/A" when missing or zero. */
  function DurationText(episodeRunTime: seq<int>): (r: string)
    ensures r == NotAvailable <==> |episodeRunTime| == 0 || episodeRunTime[0] == 0
    ensures r != NotAvailable ==> r == IntToDecimal(episodeRunTime[0]) + " min."
  {
    if |episodeRunTime| > 0 && episodeRunTime[0] != 0 then IntToDecimal(episodeRunTime[0]) + " min."
    else NotAvailable
  }

  /** `item.vote_average || "N/A"`: None stands for "N/A". */
  function SeriesRating(voteAverage: Option<real>): (r: Option<real>)
    ensures r.Some? <==> voteAverage.Some? && voteAverage.value != 0.0
    ensures r.Some? ==> r == voteAverage
  {
    if voteAverage.Some? && voteAverage.value != 0.0 then voteAverage else None
  }

  // ----- formatGenreTags -----

  /** The separators of `split(/ and |\//)`. */
  predicate IsGenreSeparator(sep: string) {
    sep == " and " || sep == "/"
  }

  /** Every element is one of the two separators. */
  predicate AllSeparators(seps: seq<string>) {
    forall k :: 0 <= k < |seps| ==> IsGenreSeparator(seps[k])
  }

  /** " and " starts at position i of t. */
  predicate AndAt(t: string, i: int) {
    0 <= i && i + 5 <= |t| && t[i..i + 5] == " and "
  }

  /** t holds neither separator. */
  predicate NoGenreSeparator(t: string) {
    '/' !in t && forall i :: 0 <= i < |t| ==> !AndAt(t, i)
  }

  /** Pieces with separators between them: `pieces[0] + seps[0] + pieces[1] + ...`. */
  function Interleave(pieces: seq<string>, seps: seq<string>): string
    requires |pieces| >= 1 && |seps| == |pieces| - 1
  {
    if |pieces| == 1 then pieces[0] else pieces[0] + seps[0] + Interleave(pieces[1..], seps[1..])
  }

  /** `name.split(/ and |\//)`: tried at each position, " and " before "/". */
  function SplitGenreName(s: string): (r: seq<string>)
    ensures |r| >= 1
    ensures r[0] <= s
    decreases |s|
  {
    if |s| == 0 then [""]
    else if |s| >= 5 && s[..5] == " and " then [""] + SplitGenreName(s[5..])
    else if s[0] == '/' then [""] + SplitGenreName(s[1..])
    else
      var rest := SplitGenreName(s[1..]);
      assert [s[0]] + rest[0] <= s by {
        assert s == [s[0]] + s[1..];
      }
      [[s[0]] + rest[0]] + rest[1..]
  }

  /** No piece contains a separator. */
  lemma {:induction false} SplitGenreNamePieces(s: string)
    ensures forall k :: 0 <= k < |SplitGenreName(s)| ==> NoGenreSeparator(SplitGenreName(s)[k])
    decreases |s|
  {
    if |s| == 0 {
      assert SplitGenreName(s) == [""];
    } else if |s| >= 5 && s[..5] == " and " {
      SplitGenreNamePieces(s[5..]);
      assert NoGenreSeparator("");
      assert SplitGenreName(s) == [""] + SplitGenreName(s[5..]);
    } else if s[0] == '/' {
      SplitGenreNamePieces(s[1..]);
      assert NoGenreSeparator("");
      assert SplitGenreName(s) == [""] + SplitGenreName(s[1..]);
    } else {
      var rest := SplitGenreName(s[1..]);
      SplitGenreNamePieces(s[1..]);
      ExtendPiece(s, rest[0]);
      var r := SplitGenreName(s);
      assert r == [[s[0]] + rest[0]] + rest[1..];
      forall k | 0 <= k < |r| ensures NoGenreSeparator(r[k]) {
        if k > 0 { assert r[k] == rest[k]; }
      }
    }
  }

  /** A character that starts no separator, put in front of a separator-free piece of the rest, keeps it separator-free. */
  lemma ExtendPiece(s: string, piece: string)
    requires |s| > 0 && s[0] != '/' && !(|s| >= 5 && s[..5] == " and ")
    requires piece <= s[1..] && NoGenreSeparator(piece)
    ensures [s[0]] + piece <= s && NoGenreSeparator([s[0]] + piece)
  {
    var first := [s[0]] + piece;
    assert first <= s;
    forall i | 0 <= i < |first| ensures !AndAt(first, i) {
      if i > 0 {
        assert first[i..] == piece[i - 1..];
        assert !AndAt(piece, i - 1);
      } else if |first| >= 5 {
        assert first[..5] == s[..5];
      }
    }
  }

  /** A separator starts at position i of t. */
  predicate SeparatorAt(t: string, i: int) {
    AndAt(t, i) || (0 <= i < |t| && t[i] == '/')
  }

  /** The length of the separator starting at position i: " and " is tried before "/". */
  function SeparatorLength(t: string, i: int): (n: nat)
    requires SeparatorAt(t, i)
    ensures i + n <= |t|
    ensures n == 5 <==> AndAt(t, i)
  {
    if AndAt(t, i) then 5 else 1
  }

  /** A name in which no separator starts is one piece. */
  lemma {:induction false} SplitGenreNameWhole(s: string)
    requires forall j :: 0 <= j < |s| ==> !SeparatorAt(s, j)
    ensures SplitGenreName(s) == [s]
    decreases |s|
  {
    if |s| > 0 {
      assert !SeparatorAt(s, 0);
      forall j | 0 <= j < |s| - 1 ensures !SeparatorAt(s[1..], j) {
        ShiftSeparator(s, j);
      }
      SplitGenreNameWhole(s[1..]);
      assert s == [s[0]] + s[1..];
    }
  }

  /**
   * The first cut is made at the leftmost separator: with i the least
   * position where one starts, the first piece is s[..i] and the others
   * are the pieces of what follows that separator.
   */
  lemma {:induction false} SplitGenreNameFirstCut(s: string, i: int)
    requires SeparatorAt(s, i)
    requires forall j :: 0 <= j < i ==> !SeparatorAt(s, j)
    ensures SplitGenreName(s) == [s[..i]] + SplitGenreName(s[i + SeparatorLength(s, i)..])
    decreases i
  {
    if i > 0 {
      assert !SeparatorAt(s, 0);
      var t := s[1..];
      ShiftSeparator(s, i - 1);
      forall j | 0 <= j < i - 1 ensures !SeparatorAt(t, j) {
        ShiftSeparator(s, j);
      }
      assert SeparatorLength(t, i - 1) == SeparatorLength(s, i);
      SplitGenreNameFirstCut(t, i - 1);
      assert t[i - 1 + SeparatorLength(t, i - 1)..] == s[i + SeparatorLength(s, i)..];
      assert [s[0]] + t[..i - 1] == s[..i];
    }
  }

  /** A separator starts at j + 1 of t exactly when it starts at j of t without its first character. */
  lemma ShiftSeparator(t: string, j: int)
    requires |t| > 0 && 0 <= j
    ensures SeparatorAt(t[1..], j) <==> SeparatorAt(t, j + 1)
    ensures AndAt(t[1..], j) <==> AndAt(t, j + 1)
  {
    if j + 5 <= |t| - 1 {
      assert t[1..][j..j + 5] == t[j + 1..j + 6];
    }
  }

  /** The separators `SplitGenreName` cuts at, in order. */
  function GenreSeparators(s: string): seq<string>
    decreases |s|
  {
    if |s| == 0 then []
    else if |s| >= 5 && s[..5] == " and " then [" and "] + GenreSeparators(s[5..])
    else if s[0] == '/' then ["/"] + GenreSeparators(s[1..])
    else GenreSeparators(s[1..])
  }

  /** The pieces put back together with the separators found between them give the name back. */
  lemma {:induction false} SplitGenreNameRoundTrip(s: string)
    ensures |GenreSeparators(s)| == |SplitGenreName(s)| - 1
    ensures AllSeparators(GenreSeparators(s))
    ensures Interleave(SplitGenreName(s), GenreSeparators(s)) == s
    decreases |s|, 1
  {
    if |s| == 0 {
    } else if |s| >= 5 && s[..5] == " and " {
      SeparatorFirst(s, s[..5], s[5..]);
    } else if s[0] == '/' {
      SeparatorFirst(s, s[..1], s[1..]);
    } else {
      CharacterFirst(s);
    }
  }

  /** A name that starts with a character of no separator has that character in front of its first piece. */
  lemma {:induction false} CharacterFirst(s: string)
    requires |s| > 0 && s[0] != '/' && !(|s| >= 5 && s[..5] == " and ")
    ensures |GenreSeparators(s)| == |SplitGenreName(s)| - 1
    ensures AllSeparators(GenreSeparators(s))
    ensures Interleave(SplitGenreName(s), GenreSeparators(s)) == s
    decreases |s|, 0
  {
    var t := s[1..];
    SplitGenreNameRoundTrip(t);
    CharacterFirstUnfold(s);
    InterleaveExtendFirst(s[0], SplitGenreName(t), GenreSeparators(t));
    assert s == [s[0]] + t;
  }

  /** A character of no separator joins the first piece of the rest, and no separator is found at it. */
  lemma CharacterFirstUnfold(s: string)
    requires |s| > 0 && s[0] != '/' && !(|s| >= 5 && s[..5] == " and ")
    ensures var pieces := SplitGenreName(s[1..]);
      SplitGenreName(s) == [[s[0]] + pieces[0]] + pieces[1..]
    ensures GenreSeparators(s) == GenreSeparators(s[1..])
  {
  }

  /** A name that starts with a separator splits into an empty piece, that separator, and the rest's split. */
  lemma {:induction false} SeparatorFirst(s: string, sep: string, tail: string)
    requires |s| > 0 && s == sep + tail
    requires (sep == " and " && |s| >= 5 && s[..5] == " and ") || (sep == "/" && s[0] == '/' && !(|s| >= 5 && s[..5] == " and "))
    ensures |GenreSeparators(s)| == |SplitGenreName(s)| - 1
    ensures AllSeparators(GenreSeparators(s))
    ensures Interleave(SplitGenreName(s), GenreSeparators(s)) == s
    decreases |s|, 0
  {
    SplitGenreNameRoundTrip(tail);
    var pieces := SplitGenreName(tail);
    var seps := GenreSeparators(tail);
    assert tail == s[|sep|..];
    assert SplitGenreName(s) == [""] + pieces;
    assert GenreSeparators(s) == [sep] + seps;
    SeparatorInFront(sep, pieces, seps);
  }

  /** An empty piece and a separator in front of a split come out as that separator in front of the whole. */
  lemma SeparatorInFront(sep: string, pieces: seq<string>, seps: seq<string>)
    requires IsGenreSeparator(sep) && AllSeparators(seps)
    requires |pieces| >= 1 && |seps| == |pieces| - 1
    ensures AllSeparators([sep] + seps)
    ensures Interleave([""] + pieces, [sep] + seps) == sep + Interleave(pieces, seps)
  {
    assert ([""] + pieces)[1..] == pieces && ([sep] + seps)[1..] == seps;
    forall k | 0 <= k < |[sep] + seps| ensures IsGenreSeparator(([sep] + seps)[k]) {
      if k > 0 { assert ([sep] + seps)[k] == seps[k - 1]; }
    }
  }

  /** A character put in front of the first piece comes out in front of the whole. */
  lemma InterleaveExtendFirst(c: char, pieces: seq<string>, seps: seq<string>)
    requires |pieces| >= 1 && |seps| == |pieces| - 1
    ensures Interleave([[c] + pieces[0]] + pieces[1..], seps) == [c] + Interleave(pieces, seps)
  {
    var longer := [[c] + pieces[0]] + pieces[1..];
    if |pieces| > 1 {
      assert longer[1..] == pieces[1..];
    }
  }

  /** A hashtag: `#` followed by characters that are neither white space nor `-`. */
  predicate IsHashtag(t: string) {
    |t| >= 1 && t[0] == '#' && forall k :: 1 <= k < |t| ==> !IsJsSpace(t[k]) && t[k] != '-'
  }

  /** Every element is a hashtag. */
  predicate AllHashtags(tags: seq<string>) {
    forall k :: 0 <= k < |tags| ==> IsHashtag(tags[k])
  }

  lemma AllHashtagsAppend(a: seq<string>, b: seq<string>)
    requires AllHashtags(a) && AllHashtags(b)
    ensures AllHashtags(a + b)
  {
    forall k | 0 <= k < |a + b| ensures IsHashtag((a + b)[k]) {
      if k >= |a| { assert (a + b)[k] == b[k - |a|]; }
    }
  }

  /** The tag of one piece: trimmed, with `-` and white space made `_`. */
  function PieceTag(piece: string): (r: string)
    ensures IsHashtag(r)
  {
    var u := Underscored(Trim(piece));
    HashtagOf(u);
    "#" + u
  }

  lemma HashtagOf(u: string)
    requires forall i :: 0 <= i < |u| ==> !IsJsSpace(u[i]) && u[i] != '-'
    ensures IsHashtag("#" + u)
  {
    assert forall k :: 1 <= k < |"#" + u| ==> ("#" + u)[k] == u[k - 1];
  }

  /**
   * The tags one genre name gives: "&" read as " and ", split, and each
   * piece trimmed, with white space and `-` made `_`, behind a `#`.
   */
  function NameTags(name: string): (r: seq<string>)
    ensures |r| >= 1
    ensures AllHashtags(r)
    ensures |r| == |SplitGenreName(ReplaceAmpersands(name))|
  {
    var pieces := SplitGenreName(ReplaceAmpersands(name));
    seq(|pieces|, k requires 0 <= k < |pieces| => PieceTag(pieces[k]))
  }

  /** Tag k of a name is `#` followed by piece k trimmed, with white space and `-` made `_`. */
  lemma NameTagsPieces(name: string)
    ensures var pieces := SplitGenreName(ReplaceAmpersands(name));
      forall k :: 0 <= k < |pieces| ==> NameTags(name)[k] == "#" + Underscored(Trim(pieces[k]))
  {
  }

  /** All the tags of a list of genre names, in order. */
  function GenreTagTokens(names: seq<string>): (r: seq<string>)
    ensures |r| >= |names|
  {
    if |names| == 0 then []
    else
      var first := NameTags(names[0]);
      var rest := GenreTagTokens(names[1..]);
      first + rest
  }

  /** Every tag of a list of names is a hashtag. */
  lemma {:induction false} GenreTagTokensAreHashtags(names: seq<string>)
    ensures AllHashtags(GenreTagTokens(names))
  {
    if |names| > 0 {
      GenreTagTokensAreHashtags(names[1..]);
      AllHashtagsAppend(NameTags(names[0]), GenreTagTokens(names[1..]));
    }
  }

  /** One name gives exactly its own tags. */
  lemma GenreTagTokensSingle(name: string)
    ensures GenreTagTokens([name]) == NameTags(name)
  {
    assert [name][1..] == [];
  }

  /** The tags of a list of names are `names.flatMap` of each name's tags. */
  lemma {:induction false} GenreTagTokensFlatMap(names: seq<string>)
    ensures GenreTagTokens(names) == FlatMap(names, NameTags)
  {
    if |names| > 0 {
      GenreTagTokensFlatMap(names[1..]);
    }
  }

  /** The tags of a concatenation are the tags of each part in turn, so names keep their order. */
  lemma GenreTagTokensAppend(a: seq<string>, b: seq<string>)
    ensures GenreTagTokens(a + b) == GenreTagTokens(a) + GenreTagTokens(b)
  {
    GenreTagTokensFlatMap(a + b);
    GenreTagTokensFlatMap(a);
    GenreTagTokensFlatMap(b);
    FlatMapAppend(a, b, NameTags);
  }

  /** A hashtag holds no space character. */
  lemma HashtagsHaveNoSpace(tokens: seq<string>)
    requires AllHashtags(tokens)
    ensures forall k :: 0 <= k < |tokens| ==> ' ' !in tokens[k]
  {
    forall k | 0 <= k < |tokens| ensures ' ' !in tokens[k] {
      var t := tokens[k];
      assert IsHashtag(t);
      forall m | 0 <= m < |t| ensures t[m] != ' ' {
        if m > 0 { assert !IsJsSpace(t[m]); }
      }
    }
  }

  /** `formatGenreTags`: the hashtags joined by single spaces; splitting the text on spaces gives the hashtags back. */
  function FormatGenreTags(names: seq<string>): (r: string)
    ensures |names| == 0 ==> r == ""
    ensures |names| > 0 ==> SplitOn(r, ' ') == GenreTagTokens(names)
  {
    var tokens := GenreTagTokens(names);
    GenreTagTokensAreHashtags(names);
    if |tokens| == 0 then ""
    else
      HashtagsHaveNoSpace(tokens);
      SplitJoinRoundTrip(tokens, ' ');
      Join(tokens, " ")
  }

  // ----- captions -----

  /** The texts of the movie caption. `rating` None renders as "undefined". */
  datatype MovieCard = MovieCard(
    title: string, year: string, genres: string, language: string,
    releaseDate: string, rating: Option<real>, overview: string)

  /** The texts of the series caption. `rating` None renders as "N/A". */
  datatype SeriesCard = SeriesCard(
    title: string, year: string, rating: Option<real>, genres: string,
    countries: string, duration: string, mediaType: string, overview: string)

  const PosterBase := "https://image.tmdb.org/t/p/w500"

  /** The poster URL when the hit has a poster path; without one the caption is sent as text. */
  function PosterUrl(path: Option<string>): (r: Option<string>)
    ensures r.Some? <==> Truthy(path)
    ensures r.Some? ==> r.value == PosterBase + path.value
  {
    if Truthy(path) then Some(PosterBase + path.value) else None
  }

  /**
   * The movie caption of a hit. The year is at most the first four
   * characters of the release date, or empty when there is none; the title
   * and release date are shown even when undefined.
   */
  function MovieCardOf(item: Summary): (r: MovieCard)
    ensures r.title == Render(item.title) && r.releaseDate == Render(item.releaseDate)
    ensures var d := OrElse(item.releaseDate, "");
      r.year <= d && |r.year| == (if |d| < 4 then |d| else 4)
    ensures r.genres == MovieGenreText(item.genreIds)
    ensures r.language == LanguageText(item.originalLanguage)
    ensures r.rating == item.voteAverage
    ensures r.overview == OverviewText(item.overview)
  {
    MovieCard(
      Render(item.title),
      Prefix(OrElse(item.releaseDate, ""), 4),
      MovieGenreText(item.genreIds),
      LanguageText(item.originalLanguage),
      Render(item.releaseDate),
      item.voteAverage,
      OverviewText(item.overview))
  }

  /**
   * The series caption of a hit and its details: the name ("Untitled" when
   * missing or empty), the year, rating, genres, countries and run time,
   * the fixed media type, and the overview of the details (not of the hit).
   */
  function SeriesCardOf(item: Summary, details: TvDetails): (r: SeriesCard)
    ensures Truthy(item.name) ==> r.title == item.name.value
    ensures !Truthy(item.name) ==> r.title == "Untitled"
    ensures r.year == SeriesYear(item.firstAirDate) && r.rating == SeriesRating(item.voteAverage)
    ensures r.genres == SeriesGenreText(details.genreNames)
    ensures r.countries == CountriesText(details.originCountry)
    ensures r.duration == DurationText(details.episodeRunTime)
    ensures r.mediaType == "TV show"
    ensures Truthy(details.overview) ==> r.overview == details.overview.value
    ensures !Truthy(details.overview) ==> r.overview == NoDescription
  {
    SeriesCard(
      OrElse(item.name, "Untitled"),
      SeriesYear(item.firstAirDate),
      SeriesRating(item.voteAverage),
      SeriesGenreText(details.genreNames),
      CountriesText(details.originCountry),
      DurationText(details.episodeRunTime),
      "TV show",
      OrElse(details.overview, NoDescription))
  }
}
