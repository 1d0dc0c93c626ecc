// The bot's per-chat conversation: the two dictionaries keyed by chat id
// (`pendingSearch`, `userMovieData`) and the handlers of the three events
// that read and write them: a text message, a media-type button and a
// result button. What the handlers send to Telegram is returned as a list
// of replies, in sending order; what the HTTP providers answer is passed
// in.

module Conversation {
  import opened JsText
  import opened Records
  import opened Presentation
  import opened DownloadLinks

  const StartCommand := "/start"
  /** The `type` values of the two buttons under "Is this a movie or a series?". */
  const MediaChoices: seq<string> := ["movie", "tv"]
  /** Search results kept per search. */
  const MaxResults := 5

  /** What the bot keeps of a search: the media type asked for and the first hits. */
  datatype Stored = Stored(mediaType: string, results: seq<Summary>)

  /** A result button: its text and the index its callback data carries. */
  datatype Button = Button(text: string, index: int)

  /** The callback data of a button press: text that is not JSON, or an object with optional `type` and `index`. */
  datatype Payload = Unparsable | Parsed(mediaType: Option<string>, index: Option<int>)

  /** The search the bot sends to the metadata provider: `/search/{type}` with `query` (absent when undefined). */
  datatype SearchRequest = SearchRequest(mediaType: string, query: Option<string>)

  /** What the handlers send to Telegram, one element per call. */
  datatype Reply =
    | Welcome                                       // answer to /start
    | TypePrompt(choices: seq<string>)              // "Is this a movie or a series?"
    | DeletePrompt(messageId: int)                  // deleteMessage of the type prompt
    | NoResults                                     // "No results found. Try another title."
    | SearchFailed                                  // "Could not fetch data."
    | ItemPrompt(noun: string, buttons: seq<Button>)// "Select a movie:" / "Select a series:"
    | NotFound                                      // "Not found. Please search again."
    | ClearKeyboard(messageId: int)                 // editMessageReplyMarkup with no buttons
    | MoviePost(poster: Option<string>, movie: MovieCard)
    | LinkChunk(text: string)                       // one piece of the download-link message
    | NoLinks                                       // "No downloadable links found."
    | LinksFailed                                   // "Couldn't fetch movie download links."
    | SeriesPost(poster: Option<string>, series: SeriesCard)
    | NoImdbId                                      // "Couldn't find IMDb ID for this series."
    | SeriesInvite(link: string)                    // "[Join Channel](link)"
    | NoInvite                                      // "No invite link found."
    | SeriesFailed                                  // "Couldn't fetch series information."

  /** What the HTTP providers answer during one callback. */
  datatype Upstream = Upstream(
    search: Fetch<seq<Summary>>,          // /search/{type}: `data.results`
    movieLinks: Fetch<Qualities>,         // link provider: `data.qualities`
    seriesDetails: Fetch<TvDetails>,      // /tv/{id}
    imdbId: Fetch<Option<string>>,        // /tv/{id}/external_ids: `data.imdb_id`
    inviteLink: Fetch<Option<string>>)    // series link provider: `data.invite_link`

  function Min(a: int, b: int): int {
    if a <= b then a else b
  }

  // ----- the type-choice step -----

  /** `results.slice(0, 5)`: the first hits in provider order, at most five. */
  function FirstResults(hits: seq<Summary>): (r: seq<Summary>)
    ensures |r| == Min(|hits|, MaxResults)
    ensures r <= hits
  {
    hits[..Min(|hits|, MaxResults)]
  }

  /** One button per kept hit, in order; button i carries index i. */
  function Keyboard(results: seq<Summary>): (r: seq<Button>)
    ensures |r| == |results|
    ensures forall i :: 0 <= i < |r| ==> r[i].index == i && r[i].text == ItemLabel(results[i])
  {
    seq(|results|, i requires 0 <= i < |results| => Button(ItemLabel(results[i]), i))
  }

  /** The prompt's noun: "movie" for the movie type, "series" for any other. */
  function Noun(mediaType: string): (r: string)
    ensures r == "movie" <==> mediaType == "movie"
    ensures r != "movie" ==> r == "series"
  {
    if mediaType == "movie" then "movie" else "series"
  }

  /** `userMovieData` after a search: the kept hits replace the chat's entry, unless there are none. */
  function ResultsAfter(data: map<int, Stored>, chatId: int, mediaType: string, search: Fetch<seq<Summary>>): (r: map<int, Stored>)
    ensures r.Keys == data.Keys + (if search.Fetched? && search.value != [] then {chatId} else {})
    ensures forall c :: c in data && c != chatId ==> r[c] == data[c]
    ensures search.FetchFailed? || search.value == [] ==> r == data
    ensures search.Fetched? && search.value != [] ==>
      r[chatId] == Stored(mediaType, FirstResults(search.value)) && 1 <= |r[chatId].results| <= MaxResults
  {
    match search
    case FetchFailed => data
    case Fetched(hits) => if hits == [] then data else data[chatId := Stored(mediaType, FirstResults(hits))]
  }

  /** What follows the prompt's deletion: the error, "no results", or the result buttons. */
  function SearchReplies(mediaType: string, search: Fetch<seq<Summary>>): (r: seq<Reply>)
    ensures |r| == 1
    ensures search.FetchFailed? ==> r == [SearchFailed]
    ensures search.Fetched? && search.value == [] ==> r == [NoResults]
    ensures search.Fetched? && search.value != [] ==>
      r[0].ItemPrompt? && r[0].noun == Noun(mediaType) && |r[0].buttons| == Min(|search.value|, MaxResults)
      && r[0].buttons == Keyboard(FirstResults(search.value))
  {
    match search
    case FetchFailed => [SearchFailed]
    case Fetched(hits) =>
      if hits == [] then [NoResults] else [ItemPrompt(Noun(mediaType), Keyboard(FirstResults(hits)))]
  }

  // ----- the item-choice step -----

  /** `userMovieData[chatId]` and `results[index]`, when both exist. */
  function Lookup(data: map<int, Stored>, chatId: int, index: Option<int>): (r: Option<(string, Summary)>)
    ensures r.Some? <==> chatId in data && index.Some? && 0 <= index.value < |data[chatId].results|
    ensures r.Some? ==> r.value == (data[chatId].mediaType, data[chatId].results[index.value])
  {
    if chatId in data && index.Some? && 0 <= index.value < |data[chatId].results|
    then Some((data[chatId].mediaType, data[chatId].results[index.value]))
    else None
  }

  /** Every button of a search's keyboard finds the hit it is labelled with, and no other index finds anything. */
  lemma KeyboardAddressesResults(data: map<int, Stored>, chatId: int, mediaType: string, hits: seq<Summary>, index: int)
    requires hits != []
    ensures var after := ResultsAfter(data, chatId, mediaType, Fetched(hits));
      var kb := Keyboard(FirstResults(hits));
      && (forall i :: 0 <= i < |kb| ==>
            Lookup(after, chatId, Some(kb[i].index)) == Some((mediaType, hits[i])) && kb[i].text == ItemLabel(hits[i]))
      && (Lookup(after, chatId, Some(index)).Some? <==> 0 <= index < |kb|)
  {
  }

  /** The download-link replies once the link provider has answered. */
  function LinkReplies(links: Fetch<Qualities>, formatSize: int -> string): (r: seq<Reply>)
    ensures |r| >= 1
    ensures links.FetchFailed? ==> r == [LinksFailed]
    ensures links.Fetched? ==> (r == [NoLinks] <==> Listed(links.value) == [])
    ensures links.Fetched? && Listed(links.value) != [] ==>
      var chunks := LinkMessages(LinkTexts(Listed(links.value), formatSize)).value;
      |r| == |chunks| && forall k :: 0 <= k < |r| ==> r[k] == LinkChunk(chunks[k])
  {
    match links
    case FetchFailed => [LinksFailed]
    case Fetched(q) =>
      match LinkMessages(LinkTexts(Listed(q), formatSize))
      case None => [NoLinks]
      case Some(chunks) =>
        var sent := seq(|chunks|, k requires 0 <= k < |chunks| => LinkChunk(chunks[k]));
        assert sent[0].LinkChunk?;
        sent
  }

  /** The series replies after the keyboard is cleared: caption, then invite link or the reason there is none. */
  function SeriesReplies(item: Summary, up: Upstream): (r: seq<Reply>)
    ensures |r| >= 1
    ensures up.seriesDetails.FetchFailed? <==> r == [SeriesFailed]
    ensures up.seriesDetails.Fetched? ==> r[0] == SeriesPost(PosterUrl(item.posterPath), SeriesCardOf(item, up.seriesDetails.value))
    ensures up.seriesDetails.Fetched? ==> |r| == 2
    ensures r[|r| - 1].SeriesInvite? <==>
      up.seriesDetails.Fetched? && up.imdbId.Fetched? && Truthy(up.imdbId.value) && up.inviteLink.Fetched? && Truthy(up.inviteLink.value)
    ensures r[|r| - 1].SeriesInvite? ==> r[|r| - 1].link == up.inviteLink.value.value
    ensures up.seriesDetails.Fetched? && up.imdbId.FetchFailed? ==> r[1] == SeriesFailed
    ensures up.seriesDetails.Fetched? && up.imdbId.Fetched? && !Truthy(up.imdbId.value) ==> r[1] == NoImdbId
    ensures up.seriesDetails.Fetched? && up.imdbId.Fetched? && Truthy(up.imdbId.value) ==>
      (up.inviteLink.FetchFailed? ==> r[1] == SeriesFailed)
      && (up.inviteLink.Fetched? && !Truthy(up.inviteLink.value) ==> r[1] == NoInvite)
  {
    match up.seriesDetails
    case FetchFailed => [SeriesFailed]
    case Fetched(details) =>
      [SeriesPost(PosterUrl(item.posterPath), SeriesCardOf(item, details))] +
      match up.imdbId
      case FetchFailed => [SeriesFailed]
      case Fetched(id) =>
        if !Truthy(id) then [NoImdbId]
        else
          match up.inviteLink
          case FetchFailed => [SeriesFailed]
          case Fetched(invite) => if Truthy(invite) then [SeriesInvite(invite.value)] else [NoInvite]
  }

  /** The replies to a button for a stored hit: movie caption and links, series caption and invite, or nothing for any other type. */
  function ItemReplies(mediaType: string, item: Summary, promptId: int, up: Upstream, formatSize: int -> string): (r: seq<Reply>)
    ensures mediaType == "movie" ==>
      |r| >= 3 && r[0] == ClearKeyboard(promptId) && r[1] == MoviePost(PosterUrl(item.posterPath), MovieCardOf(item))
      && r[2..] == LinkReplies(up.movieLinks, formatSize)
    ensures mediaType == "tv" ==> |r| >= 2 && r[0] == ClearKeyboard(promptId) && r[1..] == SeriesReplies(item, up)
    ensures mediaType != "movie" && mediaType != "tv" ==> r == []
  {
    if mediaType == "movie" then
      [ClearKeyboard(promptId), MoviePost(PosterUrl(item.posterPath), MovieCardOf(item))] + LinkReplies(up.movieLinks, formatSize)
    else if mediaType == "tv" then
      [ClearKeyboard(promptId)] + SeriesReplies(item, up)
    else []
  }

  /** The replies to a result button: "not found" unless the chat has stored hits and the index addresses one. */
  function ItemChoiceReplies(data: map<int, Stored>, chatId: int, index: Option<int>, promptId: int, up: Upstream, formatSize: int -> string): (r: seq<Reply>)
    ensures r == [NotFound] <==> Lookup(data, chatId, index).None?
  {
    match Lookup(data, chatId, index)
    case None => [NotFound]
    case Some((mediaType, item)) => ItemReplies(mediaType, item, promptId, up, formatSize)
  }

  /** The bot's in-memory conversation state, shared by all chats. */
  class Store {
    /** Chat id to the text of its last message, awaiting a media type (None: the message had no text). */
    var pendingSearch: map<int, Option<string>>
    /** Chat id to its last non-empty search. */
    var userMovieData: map<int, Stored>

    /** Every stored search has a media type and one to five hits. */
    ghost predicate Valid()
      reads this
    {
      forall c :: c in userMovieData ==>
        userMovieData[c].mediaType != "" && 1 <= |userMovieData[c].results| <= MaxResults
    }

    constructor ()
      ensures Valid()
      ensures pendingSearch == map[] && userMovieData == map[]
    {
      pendingSearch := map[];
      userMovieData := map[];
    }

    /** A message: /start is answered with the welcome text; anything else becomes the chat's pending search. */
    method OnMessage(chatId: int, text: Option<string>) returns (replies: seq<Reply>)
      requires Valid()
      modifies this
      ensures Valid()
      ensures userMovieData == old(userMovieData)
      ensures text == Some(StartCommand) ==> replies == [Welcome] && pendingSearch == old(pendingSearch)
      ensures text != Some(StartCommand) ==>
        replies == [TypePrompt(MediaChoices)] && pendingSearch == old(pendingSearch)[chatId := text]
    {
      if text == Some(StartCommand) {
        return [Welcome];
      }
      pendingSearch := pendingSearch[chatId := text];
      replies := [TypePrompt(MediaChoices)];
    }

    /**
     * A media-type button: takes the chat's pending text (undefined when
     * there is none) out of `pendingSearch`, deletes the prompt, searches,
     * and keeps the first five hits, or nothing when there are none.
     */
    method OnTypeChoice(chatId: int, promptId: int, mediaType: string, search: Fetch<seq<Summary>>)
      returns (request: SearchRequest, replies: seq<Reply>)
      requires Valid()
      requires mediaType != ""
      modifies this
      ensures Valid()
      ensures request == SearchRequest(mediaType, if chatId in old(pendingSearch) then old(pendingSearch)[chatId] else None)
      ensures pendingSearch == old(pendingSearch) - {chatId}
      ensures userMovieData == ResultsAfter(old(userMovieData), chatId, mediaType, search)
      ensures replies == [DeletePrompt(promptId)] + SearchReplies(mediaType, search)
    {
      var query := if chatId in pendingSearch then pendingSearch[chatId] else None;
      pendingSearch := pendingSearch - {chatId};
      request := SearchRequest(mediaType, query);
      replies := [DeletePrompt(promptId)];
      match search {
        case FetchFailed =>
          replies := replies + [SearchFailed];
        case Fetched(hits) =>
          var results := hits[..Min(|hits|, MaxResults)];
          if |results| == 0 {
            replies := replies + [NoResults];
          } else {
            userMovieData := userMovieData[chatId := Stored(mediaType, results)];
            replies := replies + [ItemPrompt(Noun(mediaType), Keyboard(results))];
          }
      }
    }

    /** A result button: looks the hit up and answers with its caption and links; it changes no state. */
    method OnItemChoice(chatId: int, promptId: int, index: Option<int>, up: Upstream, formatSize: int -> string)
      returns (replies: seq<Reply>)
      ensures replies == ItemChoiceReplies(userMovieData, chatId, index, promptId, up, formatSize)
      ensures replies == [NotFound] <==> Lookup(userMovieData, chatId, index).None?
    {
      if !(chatId in userMovieData && index.Some? && 0 <= index.value < |userMovieData[chatId].results|) {
        return [NotFound];
      }
      var stored := userMovieData[chatId];
      var item := stored.results[index.value];
      if stored.mediaType == "movie" {
        replies := [ClearKeyboard(promptId), MoviePost(PosterUrl(item.posterPath), MovieCardOf(item))];
        match up.movieLinks {
          case FetchFailed =>
            replies := replies + [LinksFailed];
          case Fetched(q) =>
            var links := BuildLinks(q, formatSize);
            var messages := LinkMessages(links);
            match messages {
              case None =>
                replies := replies + [NoLinks];
              case Some(chunks) =>
                replies := replies + seq(|chunks|, k requires 0 <= k < |chunks| => LinkChunk(chunks[k]));
            }
        }
      } else if stored.mediaType == "tv" {
        replies := [ClearKeyboard(promptId)] + SeriesReplies(item, up);
      } else {
        replies := [];
      }
    }

    /**
     * A button press: unparsable data is ignored; a truthy `type` is a
     * media-type choice; anything else is a result choice by `index`.
     */
    method OnCallback(chatId: int, promptId: int, payload: Payload, up: Upstream, formatSize: int -> string)
      returns (replies: seq<Reply>)
      requires Valid()
      modifies this
      ensures Valid()
      ensures payload.Unparsable? ==> replies == [] && unchanged(this)
      ensures payload.Parsed? && Truthy(payload.mediaType) ==>
        && pendingSearch == old(pendingSearch) - {chatId}
        && userMovieData == ResultsAfter(old(userMovieData), chatId, payload.mediaType.value, up.search)
        && replies == [DeletePrompt(promptId)] + SearchReplies(payload.mediaType.value, up.search)
      ensures payload.Parsed? && !Truthy(payload.mediaType) ==>
        && unchanged(this)
        && replies == ItemChoiceReplies(userMovieData, chatId, payload.index, promptId, up, formatSize)
    {
      match payload {
        case Unparsable =>
          replies := [];
        case Parsed(mediaType, index) =>
          if Truthy(mediaType) {
            var request;
            request, replies := OnTypeChoice(chatId, promptId, mediaType.value, up.search);
          } else {
            replies := OnItemChoice(chatId, promptId, index, up, formatSize);
          }
      }
    }
  }

  /** In a valid store a chat with stored hits has one to five buttons, and none of them is answered "not found". */
  lemma StoredButtonsAnswer(store: Store, chatId: int, promptId: int, up: Upstream, formatSize: int -> string)
    requires store.Valid() && chatId in store.userMovieData
    ensures var stored := store.userMovieData[chatId];
      var kb := Keyboard(stored.results);
      && 1 <= |kb| <= MaxResults
      && forall i :: 0 <= i < |kb| ==>
           ItemChoiceReplies(store.userMovieData, chatId, Some(kb[i].index), promptId, up, formatSize) != [NotFound]
  {
  }

  // ----- conversations -----

  /** A second text sent before a type is chosen replaces the first: only the second is searched. */
  method SupersededQueryIsSearched(chatId: int, first: string, second: string, promptId: int, mediaType: string, search: Fetch<seq<Summary>>)
    returns (request: SearchRequest)
    requires second != StartCommand && mediaType != ""
    ensures request == SearchRequest(mediaType, Some(second))
  {
    var store := new Store();
    var _ := store.OnMessage(chatId, Some(first));
    var _ := store.OnMessage(chatId, Some(second));
    var replies;
    request, replies := store.OnTypeChoice(chatId, promptId, mediaType, search);
  }

  /** On a chat with no earlier search, a search with no hits answers "no results" and leaves nothing pending and nothing stored. */
  method EmptySearchLeavesChatIdle(chatId: int, text: string, promptId: int, mediaType: string)
    returns (replies: seq<Reply>, idle: bool)
    requires text != StartCommand && mediaType != ""
    ensures replies == [DeletePrompt(promptId), NoResults]
    ensures idle
  {
    var store := new Store();
    var _ := store.OnMessage(chatId, Some(text));
    var request;
    request, replies := store.OnTypeChoice(chatId, promptId, mediaType, Fetched([]));
    idle := chatId !in store.pendingSearch && chatId !in store.userMovieData;
  }

  /**
   * A search with no hits does not clear an earlier search's hits: after
   * "no results", the earlier buttons still answer with their hits.
   */
  method EmptySearchKeepsEarlierResults(chatId: int, first: string, second: string, promptId: int, mediaType: string,
                                        hits: seq<Summary>, index: int, up: Upstream, formatSize: int -> string)
    returns (replies: seq<Reply>, answer: seq<Reply>)
    requires first != StartCommand && second != StartCommand && mediaType != ""
    requires 0 <= index < Min(|hits|, MaxResults)
    ensures replies == [DeletePrompt(promptId), NoResults]
    ensures answer == ItemReplies(mediaType, hits[index], promptId, up, formatSize)
  {
    var store := new Store();
    var _ := store.OnMessage(chatId, Some(first));
    var request, earlier := store.OnTypeChoice(chatId, promptId, mediaType, Fetched(hits));
    var _ := store.OnMessage(chatId, Some(second));
    request, replies := store.OnTypeChoice(chatId, promptId, mediaType, Fetched([]));
    answer := store.OnItemChoice(chatId, promptId, Some(index), up, formatSize);
  }

  /** Choosing a result does not consume the stored hits: the same button pressed twice gets the same answer. */
  method SelectionKeepsResults(chatId: int, text: string, promptId: int, mediaType: string, hits: seq<Summary>,
                               index: int, up: Upstream, formatSize: int -> string)
    returns (first: seq<Reply>, second: seq<Reply>)
    requires text != StartCommand && mediaType != "" && 0 <= index < Min(|hits|, MaxResults)
    ensures first == second
    ensures first == ItemReplies(mediaType, hits[index], promptId, up, formatSize)
  {
    var store := new Store();
    var _ := store.OnMessage(chatId, Some(text));
    var request, replies := store.OnTypeChoice(chatId, promptId, mediaType, Fetched(hits));
    first := store.OnItemChoice(chatId, promptId, Some(index), up, formatSize);
    second := store.OnItemChoice(chatId, promptId, Some(index), up, formatSize);
  }
}
