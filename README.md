# Telegram movie search bot — conversation model

A Dafny model of the live part of `server.js` (from line 279 on): a Telegram
bot that takes a title, asks whether it is a movie or a series, searches the
TMDB metadata service, offers the first five hits as buttons, and for the hit
chosen sends a caption and then download links (movies) or a channel invite
(series).

What is modelled:

- `Conversation.Store` — the two in-memory dictionaries keyed by chat id,
  `pendingSearch` (chat → text awaiting a media type) and `userMovieData`
  (chat → `{type, results}`), as `map` fields of a class, with one method per
  event: a text message (`OnMessage`), a media-type button (`OnTypeChoice`),
  a result button (`OnItemChoice`), and the callback dispatcher (`OnCallback`)
  that tells the two button kinds apart the way the handler does (a truthy
  `type` is a type choice, anything else is looked up by `index`). Every
  Telegram call a handler makes is returned as a `Reply`, in sending order.
  Every HTTP response is an input (`Fetch<T>`: the data, or a failure the
  handler catches). The invariant `Valid()` holds across all handlers: every
  stored search has a non-empty media type and one to five hits.
- `Presentation` — the movie genre table and language table, the genre
  hashtags with their "N/A" fallback, the language fallback to the raw code,
  the overview cut at 900 characters, the button label and year slices, the
  series caption fields, and the unused `formatGenreTags`.
- `DownloadLinks` — the nested loop that lists files by the fixed quality
  order (`BuildLinks` and its inner loop `AddBucketLinks`), proved against the
  specification `Listed`. It also covers cutting the message into pieces of
  at most 4000 characters.
- `JsText` — the JavaScript string behaviour the above relies on: truthiness
  of a string that may be `undefined`, `${undefined}`, `slice`, `join`,
  `split`, `trim`, JavaScript's `\s` class, and the `replace` calls used.
- `Records` — the TMDB search hit and series detail records.

JavaScript `undefined` is `None`. A string field is truthy when it is present
and non-empty. JavaScript's `length`, `slice` and regular expressions count
UTF-16 code units, while a Dafny `char` is one Unicode scalar value. The two
agree on text of the Basic Multilingual Plane (BMP), and the model is
faithful only for such text (see "Left out").

Behaviour of the code worth noting, which the model reproduces:

- A media-type button with no pending text does not produce an error reply.
  The handler still searches, with `query` undefined (`OnTypeChoice` returns
  that request).
- A result button never changes state. "Not found" does not reset the chat,
  and stored results survive a selection.
- A search with no hits returns before the results are stored
  (server.js:423-429), so the chat keeps the hits of its previous search and
  their buttons still answer (`EmptySearchKeepsEarlierResults`).
- The prompt deletion at server.js:411 is awaited outside the `try`. It is
  not best-effort: see "Left out".
- Files in a "360p" bucket are never listed; only the six buckets of
  `QualityOrder` are read.

Observation: the genre table's "TV Movie" becomes `#tv movie`, a tag with a
space in it (`TvMovieGenreText`). The unused `formatGenreTags` replaces
spaces and `-` by `_`, which the movie caption does not do.

## Model

| member | source | states |
|---|---|---|
| Conversation.Store.constructor | server.js:294-295 | both dictionaries start empty and the store invariant holds |
| Conversation.Store.OnMessage | server.js:357-392 | `/start` only yields the welcome reply and changes nothing; any other message (text or none) overwrites the chat's pending search and yields the movie/series prompt; `userMovieData` never changes |
| Conversation.Store.OnTypeChoice | server.js:405-453 | the chat's pending entry is removed whether or not it existed, and no other chat's entry changes; the search asks for the removed text (undefined when absent); the prompt is deleted first; failure and zero hits leave `userMovieData` unchanged; otherwise the chat's entry becomes the type and the first min(N,5) hits; the invariant is kept |
| Conversation.Store.OnItemChoice | server.js:455-634 | the replies are exactly those of `ItemChoiceReplies` for the current state, with the link lines built by the loop; "not found" exactly when there is no stored search or the index addresses no hit; the method has no modifies clause, so no state changes |
| Conversation.Store.OnCallback | server.js:394-634 | unparsable data is ignored with no state change; a truthy `type` acts as `OnTypeChoice`; anything else leaves both dictionaries unchanged and answers as `ItemChoiceReplies` with the payload's index |
| Conversation.FirstResults | server.js:421 | the kept hits are the first min(N,5) provider hits, in provider order |
| Conversation.Keyboard | server.js:431-440 | one button per kept hit, in order; button i carries index i and the hit's label |
| Conversation.ResultsAfter | server.js:421-429 | only the chat's own entry can change; a failed or empty search leaves the map as it was; otherwise the chat's entry holds the type and one to five hits, the first of the provider's |
| Conversation.Noun | server.js:444 | the prompt says "movie" exactly for the movie type and "series" for any other |
| Conversation.SearchReplies | server.js:421-452 | one reply: "could not fetch" on failure, "no results" on zero hits, otherwise a prompt with the noun for the type whose buttons are the keyboard of the first min(N,5) hits |
| Conversation.Lookup | server.js:455-461 | a hit is found exactly when the chat has stored data and the index is within its results; it is that hit, with the stored type |
| Conversation.KeyboardAddressesResults | server.js:429-461 | after a search, every button's index finds the hit named on that button, and an index finds something exactly when it belongs to one of the buttons |
| Conversation.LinkReplies | server.js:501-546 | a failed link request gives one error reply; otherwise "no downloadable links" exactly when no file is listed, and otherwise one message per chunk of the header and the listed links' lines, in order |
| Conversation.SeriesReplies | server.js:553-633 | a failed detail request gives only the error; otherwise exactly two replies, the series caption first; the second is the invite with the provider's `invite_link` exactly when details, IMDb id and invite were all fetched and the id and invite are non-empty, "no IMDb id" when the id is empty, "no invite" when the invite is empty, and the error when a later request fails |
| Conversation.ItemReplies | server.js:463-634 | a movie hit: keyboard cleared, movie caption with poster when there is a poster path, then link replies; a series hit: keyboard cleared, then the series replies; any other stored type: nothing is sent |
| Conversation.ItemChoiceReplies | server.js:455-458 | the reply is "not found" exactly when the lookup fails |
| Conversation.SupersededQueryIsSearched | server.js:357-419 | two texts in a row, then a type choice: the search asks for the second text |
| Conversation.StoredButtonsAnswer | server.js:421-461 | in a store that keeps its invariant, a chat with stored hits has one to five buttons and none of them is answered "not found" |
| Conversation.EmptySearchLeavesChatIdle | server.js:405-429 | on a chat with no earlier search, a search with no hits answers "no results" and leaves nothing pending and nothing stored for the chat |
| Conversation.EmptySearchKeepsEarlierResults | server.js:421-461 | a search with no hits after a successful one answers "no results", and the earlier buttons still answer with their hits |
| Conversation.SelectionKeepsResults | server.js:429-461 | after a search, pressing the same result button twice gets the same answer, the replies for that hit |
| Presentation.GenreTag | server.js:466 | a mapped genre id gives `#` followed by its name in the genre table (server.js:315-335) with capitals lowered |
| Presentation.MappedGenreTags | server.js:465-467 | at most one tag per id, each starting with `#` |
| Presentation.MappedGenreTagsSingle | server.js:466 | one id gives its tag when the table maps it and nothing otherwise; with `MappedGenreTagsAppend` this fixes the tags of every id list |
| Presentation.MappedGenreTagsAppend | server.js:465-467 | tagging keeps input order: the tags of a concatenation are the tags of each part in turn |
| Presentation.MappedGenreTagsEmpty | server.js:466-467 | no tag results exactly when no id is in the genre table |
| Presentation.MovieGenreText | server.js:464-468 | "N/A" exactly when no id maps; otherwise the tags joined by single spaces, starting with `#` |
| Presentation.UnmappedGenreDropped | server.js:464-468 | an unmapped id before a mapped one is dropped: `[1, 28]` gives `#action` |
| Presentation.TvMovieGenreText | server.js:331 | genre 10770 renders as `#tv movie` |
| Presentation.LanguageText | server.js:469 | a code in the language table gives its name; any other code is shown raw; a missing code renders as "undefined" |
| Presentation.OverviewText | server.js:470-473 | longer than 900 characters: the first 900 plus "..."; otherwise unchanged; missing or empty: "No overview available."; always 1 to 903 characters and keeping the first 900 |
| Presentation.ItemLabel | server.js:433-437 | the title (or the name when the title is falsy), " (", the first min(4, length) characters of the release or first-air date, ")" |
| Presentation.SeriesYear | server.js:564 | "N/A" when the first air date is missing or empty; otherwise its first min(4, length) characters |
| Presentation.SeriesGenreTags | server.js:566-568 | one tag per genre: `#` followed by the genre name with its white space removed |
| Presentation.SeriesGenreText | server.js:566-569 | "N/A" exactly when there are no genres; otherwise splitting the text on spaces gives back the tags |
| Presentation.CountriesText | server.js:570 | "N/A" for no countries or a single empty one; otherwise the countries joined by ", " |
| Presentation.DurationText | server.js:571-573 | "N/A" exactly when the first run time is missing or zero; otherwise that number and " min." |
| Presentation.SeriesRating | server.js:565 | the rating is kept exactly when present and non-zero; otherwise it is shown as "N/A" |
| Presentation.SplitGenreName | server.js:352 | the pieces of `split(/ and \|\//)`: at least one, the first a prefix of the name |
| Presentation.SplitGenreNamePieces | server.js:352 | no piece contains `/` or " and " |
| Presentation.SplitGenreNameWhole | server.js:352 | a name in which no separator starts is a single piece, the name itself |
| Presentation.SplitGenreNameFirstCut | server.js:352 | the cut is at the leftmost separator: with i the least position where " and " or `/` starts, the pieces are the text before i followed by the pieces of the text after that separator (" and " tried first) |
| Presentation.SplitGenreNameRoundTrip | server.js:352 | the pieces, put back together with the separators found between them (each " and " or `/`), give the name |
| Presentation.NameTags | server.js:351-353 | at least one tag, one per piece of the name with `&` read as " and ", each `#` followed by no white space and no `-` |
| Presentation.NameTagsPieces | server.js:351-353 | tag k of a name is `#` followed by piece k of the `&`-replaced name, trimmed, with white space and `-` made `_` |
| JsText.ReplaceAmpersands | server.js:351 | no `&` is left |
| JsText.ReplaceAmpersandsKeeps | server.js:351 | text without `&` is kept |
| JsText.ReplaceAmpersandsOne | server.js:351 | a lone `&` becomes " and " |
| JsText.ReplaceAmpersandsAppend | server.js:351 | replacing works piece by piece, which with the two above fixes the result: every `&` replaced by " and ", all else kept in order |
| JsText.FlatMapAppend | server.js:352 | `flatMap` of a concatenation is the `flatMap` of each part in turn |
| Presentation.GenreTagTokens | server.js:350-353 | the tags of all names, at least one per name |
| Presentation.GenreTagTokensAreHashtags | server.js:350-353 | every tag of a list of names is `#` followed by no white space and no `-` |
| Presentation.GenreTagTokensFlatMap | server.js:350-353 | the tags of a list of names are the `flatMap` of the names' own tags |
| Presentation.GenreTagTokensSingle | server.js:350-353 | one name gives exactly its own tags; with `GenreTagTokensAppend` this fixes the tags of every list of names |
| Presentation.GenreTagTokensAppend | server.js:350-353 | the tags of a concatenation are the tags of each part in turn, so names keep their order |
| Presentation.FormatGenreTags | server.js:349-355 | the tags joined by single spaces; splitting the result on spaces gives the tags back; empty for no genres |
| Presentation.PosterUrl | server.js:487-488 | a poster URL exactly when the hit has a poster path, and it is the w500 base followed by that path |
| Presentation.MovieCardOf | server.js:464-480 | the movie caption shows the title and release date as rendered (undefined included), the first min(4, length) characters of the release date as the year, and the genre, language, rating and overview texts above |
| Presentation.SeriesCardOf | server.js:558-584 | the series caption shows the name or "Untitled", the year, rating, genre, country and duration texts above, "TV show", and the details' overview or "No description available." |
| DownloadLinks.Group | server.js:525-526 | a bucket's listings are files with a message id, tagged with that bucket |
| DownloadLinks.ListedUpTo | server.js:517-526 | the first n buckets list only files with a message id from those buckets |
| DownloadLinks.LinkTextShape | server.js:527-529 | a link line starts with `[` and the quality; for a file with a message id it continues with " (", the formatted size and ")](", and ends with the bot's start link carrying that id in decimal |
| DownloadLinks.BuildLinks | server.js:507-532 | the loop's lines are exactly the link texts of `Listed`, in order |
| DownloadLinks.AddBucketLinks | server.js:525-531 | the inner loop appends one line per file of the bucket that has a message id, in bucket order, after the lines already built |
| DownloadLinks.GroupAppend | server.js:525 | within a bucket, listing keeps the file order |
| DownloadLinks.GroupMembership | server.js:525-526 | a file is listed under its bucket exactly when it is in the bucket and has a message id |
| DownloadLinks.ListedMembership | server.js:517-532 | a file is in the download message exactly when its bucket is one of 2160p, 1440p, 1080p, 720p, 480p, unsorted and it has a message id |
| DownloadLinks.ListedOrdered | server.js:517-524 | listings never go down in quality order: all 2160p files come before 1440p, and so on |
| DownloadLinks.ListedWithinQuality | server.js:517-532 | the listings of one quality are that bucket's files with a message id, in bucket order |
| DownloadLinks.ChunksConcat | server.js:536 | the chunks joined back together are the original text |
| DownloadLinks.ChunksSizes | server.js:536 | every chunk has 1 to n characters, and all but the last exactly n |
| DownloadLinks.LinkMessages | server.js:534-542 | no lines: the "no downloadable links" case; otherwise messages of 1 to 4000 characters that join back to the header and the lines joined by newlines |

## Left out

- The Express server, webhook route, polling setup and environment variables (server.js:279-313) are process plumbing and are not part of the model.
- Lines 1-277 of server.js are a commented-out older copy and are not modelled.
- Telegram calls are modelled as `Reply` values, assumed to succeed. In the source, `deleteMessage` (server.js:411) and the movie caption send (server.js:489-498) are awaited outside the `try`, so a failure ends the handler with an unhandled rejection. A failed deletion ends the type choice after the pending entry is removed but before the search, so nothing is stored; a failed caption send ends the item choice before the links are fetched. The model does not capture these aborts.
- Characters outside the Basic Multilingual Plane (emoji in titles or overviews): such a character is one Dafny `char` but two JavaScript code units. For text containing one, the model's lengths, the 900-unit overview cut (server.js:470-473) and the 4000-unit chunks (server.js:536) differ from the source's; for example, 899 characters and one emoji are 901 units in JavaScript and get cut, but are 900 `char`s in the model and are kept. The model is faithful only for BMP text.
- HTTP requests to TMDB and the link providers are inputs (`Upstream`, `Fetch`). Only the search request (type and query) is returned; the URLs built from `item.id` and the IMDb id are not modelled.
- `formatBytes` (server.js:508-515) uses floating-point logarithms and `toFixed`. It is a parameter `formatSize` of the link builder.
- `JSON.parse` of the callback data is abstracted to `Payload`: unparsable text, or an object with an optional `type` string and optional integer `index`. A JSON `null`, a non-string `type` or a non-integer `index` is not modelled.
- Markdown, emoji and the fixed reply texts: each reply is a `Reply` constructor or a caption record, and the texts carry no emoji. The link header and link lines keep their Markdown characters, so chunk boundaries ignore the emoji's code units.
- Ratings are kept as `real` values; JavaScript's number-to-text rendering is not modelled.
- `toLowerCase` is modelled for ASCII only; every name in the genre table is ASCII.
- Lookups in the JavaScript objects `languages` and `genreMap` by keys inherited from `Object.prototype` (such as the code "constructor") are not modelled; the tables are plain maps.
- Chunks: `match` on an empty text returns `null`; the model returns no chunks. This case cannot arise, because the text always starts with the header.
- Interleaving of handlers across `await` points is not modelled; each event runs to completion.
- The unused `promptMsgId` in the type buttons' callback data (server.js:378, 385) is not modelled.
