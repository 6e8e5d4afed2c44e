/**
 * The per-user conversation state kept in context.user_data, the chat
 * effects the handlers cause, and the net effect of each handler
 * (telegram_bot.py:25-133) as a function of the state before it.
 */
module Session {
  import opened Wrappers
  import opened Decimal
  import opened Filenames
  import opened ResultList

  type MessageId = nat

  /** The keys the handlers put in context.user_data. */
  datatype Key =
    | StartMessageId       // 'start_message_id'
    | WaitingForQuery      // 'waiting_for_query'
    | QueryMessageId       // 'query_message_id'
    | WaitingForSelection  // 'waiting_for_selection'
    | Songs                // 'songs'
    | ReplyMessageId       // 'reply_message_id'
    | LastQueryMessageId   // 'last_query_message_id'

  /** The values stored under them: the flag True, a message id, or the list of songs. */
  datatype Value = Flag | Id(id: MessageId) | Entries(songs: seq<Song>)

  /** context.user_data: state is which keys are present. */
  type UserData = map<Key, Value>

  /** What a handler does to the chat and to the outside world, in order. */
  datatype Effect =
    | Reply(id: MessageId, text: string)     // reply_text; id is that of the new message
    | Delete(target: MessageId)              // delete_message / Message.delete
    | SendAudio(id: MessageId, path: string) // reply_audio with the downloaded file
    | Search(query: string)                  // YoutubeDL.extract_info
    | Download(url: string, path: string)    // YoutubeDL.download
    | RemoveFile(path: string)               // os.remove

  /** How a handler ended: it returned, or an exception escaped it. */
  datatype Exit = Returned | Raised(error: string)

  /**
   * The net effect of one handler call: the new user_data, the effects in
   * order, how many nextId message ids its replies took, and how it ended.
   */
  datatype Step = Step(data: UserData, effects: seq<Effect>, used: nat, exit: Exit)

  const Greeting := "Привет! Используйте команду /music, чтобы искать музыку."
  const QueryPrompt := "Пожалуйста, введите название песни, которую вы хотите найти."
  const EmptyQueryPrompt := "Пожалуйста, введите название песни."
  const RangePrompt := "Пожалуйста, выберите номер от 1 до 5."
  const MaxSelection := 5

  function SearchQuery(text: string): string {
    "ytsearch5:" + text + " audio"
  }

  function SearchErrorText(error: string): string {
    "Произошла ошибка при поиске: " + error
  }

  function DownloadNotice(title: string): string {
    "Скачивание " + title + "..."
  }

  function DownloadErrorText(error: string): string {
    "Произошла ошибка при скачивании: " + error
  }

  /**
   * The shape every reachable user_data has: each key holds its kind of
   * value, the four keys of a pending selection come and go together, and
   * a pending query has its prompt's id.
   */
  predicate WellFormed(d: UserData) {
    && (StartMessageId in d ==> d[StartMessageId].Id?)
    && (WaitingForQuery in d ==> d[WaitingForQuery] == Flag)
    && (QueryMessageId in d ==> d[QueryMessageId].Id?)
    && (WaitingForSelection in d ==> d[WaitingForSelection] == Flag)
    && (Songs in d ==> d[Songs].Entries?)
    && (ReplyMessageId in d ==> d[ReplyMessageId].Id?)
    && (LastQueryMessageId in d ==> d[LastQueryMessageId].Id?)
    && (WaitingForQuery in d ==> QueryMessageId in d)
    && (WaitingForSelection in d <==> Songs in d)
    && (WaitingForSelection in d <==> ReplyMessageId in d)
    && (WaitingForSelection in d <==> LastQueryMessageId in d)
  }

  /** Key k is present in both or neither, with the same value. */
  predicate Agree(d: UserData, e: UserData, k: Key) {
    (k in d <==> k in e) && (k in d ==> d[k] == e[k])
  }

  /** d and e differ at most at the keys in changed. */
  predicate AgreeExcept(d: UserData, e: UserData, changed: set<Key>) {
    forall k :: k !in changed ==> Agree(d, e, k)
  }

  /** The keys handle_selection deletes once the song is sent. */
  const SelectionKeys: set<Key> := {WaitingForSelection, Songs, ReplyMessageId, LastQueryMessageId}

  /**
   * selected_number.isdigit() and 1 <= int(selected_number) <= 5: the
   * number chosen, if the text is one.
   */
  function ParseSelection(text: string): (r: Option<nat>)
    ensures r.Some? ==> 1 <= r.value <= MaxSelection
  {
    if text != [] && AllDigits(text) && 1 <= DecimalValue(text) <= MaxSelection then
      Some(DecimalValue(text))
    else
      None
  }

  /**
   * The texts accepted as a selection are exactly one digit from 1 to 5,
   * possibly after leading zeros ("2", "002").
   */
  lemma SelectionTexts(text: string, k: nat)
    ensures ParseSelection(text) == Some(k) <==>
      && 1 <= k <= MaxSelection
      && |text| >= 1
      && (forall i :: 0 <= i < |text| - 1 ==> text[i] == '0')
      && text[|text| - 1] == DigitChar(k)
  {
    if |text| >= 1 && (forall i :: 0 <= i < |text| - 1 ==> text[i] == '0') && 1 <= k <= MaxSelection && text[|text| - 1] == DigitChar(k) {
      assert AllDigits(text) by {
        forall i | 0 <= i < |text| ensures IsDigit(text[i]) {
          if i < |text| - 1 { assert text[i] == '0'; }
        }
      }
      SingleDigitValue(text);
    }
    if ParseSelection(text) == Some(k) {
      SingleDigitValue(text);
      var c := text[|text| - 1];
      assert DigitChar(DigitValue(c)) == c;
    }
  }

  /** The number shown in front of the i-th listed song is accepted when i <= 5, and only then. */
  lemma ListedNumberSelects(i: nat)
    ensures 1 <= i <= MaxSelection ==> ParseSelection(NatToDecimal(i)) == Some(i)
    ensures i > MaxSelection ==> ParseSelection(NatToDecimal(i)) == None
  {
    DecimalRoundTrip(i);
  }

  /** start: records the greeting's id under 'start_message_id' and touches no other key. */
  function StartStep(d: UserData, message: MessageId, nextId: MessageId): (s: Step)
    requires WellFormed(d)
    ensures WellFormed(s.data)
    ensures StartMessageId in s.data && s.data[StartMessageId] == Id(nextId)
    ensures AgreeExcept(d, s.data, {StartMessageId})
    ensures s.effects == [Delete(message), Reply(nextId, Greeting)]
    ensures s.used == 1 && s.exit == Returned
  {
    Step(d[StartMessageId := Id(nextId)], [Delete(message), Reply(nextId, Greeting)], 1, Returned)
  }

  /**
   * search_music (/music): drops 'start_message_id' (deleting the greeting
   * if there was one), sets 'waiting_for_query' and 'query_message_id', and
   * leaves every other key, a pending selection included, as it was.
   */
  function SearchMusicStep(d: UserData, message: MessageId, nextId: MessageId): (s: Step)
    requires WellFormed(d)
    ensures WellFormed(s.data)
    ensures StartMessageId !in s.data
    ensures WaitingForQuery in s.data && s.data[WaitingForQuery] == Flag
    ensures QueryMessageId in s.data && s.data[QueryMessageId] == Id(nextId)
    ensures AgreeExcept(d, s.data, {StartMessageId, WaitingForQuery, QueryMessageId})
    ensures s.effects ==
      [Delete(message)]
      + (if StartMessageId in d then [Delete(d[StartMessageId].id)] else [])
      + [Reply(nextId, QueryPrompt)]
    ensures s.used == 1 && s.exit == Returned
  {
    var cleared := if StartMessageId in d then [Delete(d[StartMessageId].id)] else [];
    var data := (d - {StartMessageId})[WaitingForQuery := Flag][QueryMessageId := Id(nextId)];
    Step(data, [Delete(message)] + cleared + [Reply(nextId, QueryPrompt)], 1, Returned)
  }

  /**
   * The four assignments and the del that end the 'waiting_for_query'
   * branch: the selection keys are set, 'waiting_for_query' goes, and
   * nothing else changes.
   */
  function AwaitSelection(d: UserData, songs: seq<Song>, list: MessageId, query: MessageId): (e: UserData)
    requires WellFormed(d)
    ensures WellFormed(e)
    ensures WaitingForQuery !in e
    ensures WaitingForSelection in e && e[WaitingForSelection] == Flag
    ensures Songs in e && e[Songs] == Entries(songs)
    ensures ReplyMessageId in e && e[ReplyMessageId] == Id(list)
    ensures LastQueryMessageId in e && e[LastQueryMessageId] == Id(query)
    ensures AgreeExcept(d, e, SelectionKeys + {WaitingForQuery})
  {
    var e := d[WaitingForSelection := Flag][Songs := Entries(songs)]
              [ReplyMessageId := Id(list)][LastQueryMessageId := Id(query)]
              - {WaitingForQuery};
    assert AgreeExcept(d, e, SelectionKeys + {WaitingForQuery}) by {
      forall k | k !in SelectionKeys + {WaitingForQuery} ensures Agree(d, e, k) {
        assert k != WaitingForSelection && k != Songs && k != ReplyMessageId && k != LastQueryMessageId;
      }
    }
    e
  }

  /**
   * The 'waiting_for_query' branch of handle_message. Empty text: one
   * prompt, nothing else. Otherwise the prompt is deleted and the search
   * runs; a failed search reports its error and keeps user_data as it was
   * ('waiting_for_query' included); a successful one sends the numbered
   * list and replaces the query keys by the four selection keys.
   */
  function QueryStep(d: UserData, message: MessageId, text: string, nextId: MessageId,
                     search: Result<seq<Song>, string>): (s: Step)
    requires WellFormed(d) && WaitingForQuery in d
    ensures WellFormed(s.data)
    ensures text == [] ==> s.data == d && s.effects == [Reply(nextId, EmptyQueryPrompt)]
    ensures text != [] ==>
      |s.effects| == 3 && s.effects[..2] == [Delete(d[QueryMessageId].id), Search(SearchQuery(text))]
    ensures text != [] && search.Failure? ==>
      s.data == d && s.effects[2] == Reply(nextId, SearchErrorText(search.error))
    ensures text != [] && search.Success? ==>
      && s.data == AwaitSelection(d, search.value, nextId, message)
      && s.effects[2] == Reply(nextId, ReplyText(search.value))
    ensures s.used == 1 && s.exit == Returned
  {
    if text == [] then
      Step(d, [Reply(nextId, EmptyQueryPrompt)], 1, Returned)
    else
      var asked := [Delete(d[QueryMessageId].id), Search(SearchQuery(text))];
      match search
      case Failure(error) =>
        Step(d, asked + [Reply(nextId, SearchErrorText(error))], 1, Returned)
      case Success(songs) =>
        Step(AwaitSelection(d, songs, nextId, message), asked + [Reply(nextId, ReplyText(songs))], 1, Returned)
  }

  /**
   * handle_selection. Text that is not a number from 1 to 5: one reply,
   * user_data unchanged. A number past the end of the list: IndexError,
   * nothing done. Otherwise the chosen song is downloaded to the path made
   * from its cleaned title, as DownloadStep says.
   */
  function SelectionStep(d: UserData, message: MessageId, text: string, nextId: MessageId,
                         download: Outcome<string>, directory: string): (s: Step)
    requires WellFormed(d) && WaitingForSelection in d
    ensures WellFormed(s.data)
    ensures ParseSelection(text).None? <==> s.effects == [Reply(nextId, RangePrompt)]
    ensures ParseSelection(text).None? ==> s.data == d && s.exit == Returned
    ensures ParseSelection(text).Some? && ParseSelection(text).value > |d[Songs].songs| ==>
      s == Step(d, [], 0, Raised("IndexError"))
    ensures ParseSelection(text).Some? && ParseSelection(text).value <= |d[Songs].songs| ==>
      var song := d[Songs].songs[ParseSelection(text).value - 1];
      s == DownloadStep(d, message, nextId, song, DownloadPath(directory, song.title), download)
  {
    var choice := ParseSelection(text);
    if choice.None? then
      Step(d, [Reply(nextId, RangePrompt)], 1, Returned)
    else if choice.value > |d[Songs].songs| then
      Step(d, [], 0, Raised("IndexError"))
    else
      DownloadStep(d, message, nextId, d[Songs].songs[choice.value - 1],
                   DownloadPath(directory, d[Songs].songs[choice.value - 1].title), download)
  }

  /**
   * The part of handle_selection after a song is chosen. The download
   * notice and the download come first; a failed download adds the error
   * reply and leaves user_data as it was; a successful one sends the audio,
   * removes the file, deletes the list, query, notice and selection
   * messages in that order, and removes exactly the four selection keys.
   */
  function DownloadStep(d: UserData, message: MessageId, nextId: MessageId, song: Song, path: string,
                        download: Outcome<string>): (s: Step)
    requires WellFormed(d) && WaitingForSelection in d
    ensures WellFormed(s.data)
    ensures s.exit == Returned && s.used == 2
    ensures |s.effects| >= 3
    ensures s.effects[..2] == [Reply(nextId, DownloadNotice(song.title)), Download(song.url, path)]
    ensures download.Fail? ==>
      s.data == d && s.effects[2..] == [Reply(nextId + 1, DownloadErrorText(download.error))]
    ensures download.Pass? ==>
      && s.data == d - SelectionKeys
      && s.effects[2..] == [SendAudio(nextId + 1, path), RemoveFile(path),
                            Delete(d[ReplyMessageId].id), Delete(d[LastQueryMessageId].id),
                            Delete(nextId), Delete(message)]
  {
    var started := [Reply(nextId, DownloadNotice(song.title)), Download(song.url, path)];
    match download
    case Fail(error) =>
      Step(d, started + [Reply(nextId + 1, DownloadErrorText(error))], 2, Returned)
    case Pass =>
      var finished := [SendAudio(nextId + 1, path), RemoveFile(path),
                       Delete(d[ReplyMessageId].id), Delete(d[LastQueryMessageId].id),
                       Delete(nextId), Delete(message)];
      ClearSelectionKeepsWellFormed(d);
      Step(d - SelectionKeys, started + finished, 2, Returned)
  }

  /** Removing the four selection keys together keeps user_data well formed. */
  lemma ClearSelectionKeepsWellFormed(d: UserData)
    requires WellFormed(d)
    ensures WellFormed(d - SelectionKeys)
  {
    var data := d - SelectionKeys;
    assert WaitingForSelection !in data && Songs !in data;
    assert ReplyMessageId !in data && LastQueryMessageId !in data;
  }

  /**
   * handle_message: the 'waiting_for_query' branch takes priority over
   * 'waiting_for_selection'; with neither key present nothing happens.
   */
  function HandleMessageStep(d: UserData, message: MessageId, text: string, nextId: MessageId,
                             search: Result<seq<Song>, string>, download: Outcome<string>,
                             directory: string): (s: Step)
    requires WellFormed(d)
    ensures WellFormed(s.data)
    ensures WaitingForQuery in d ==> s == QueryStep(d, message, text, nextId, search)
    ensures WaitingForQuery !in d && WaitingForSelection in d ==>
      s == SelectionStep(d, message, text, nextId, download, directory)
    ensures WaitingForQuery !in d && WaitingForSelection !in d ==> s == Step(d, [], 0, Returned)
  {
    if WaitingForQuery in d then QueryStep(d, message, text, nextId, search)
    else if WaitingForSelection in d then SelectionStep(d, message, text, nextId, download, directory)
    else Step(d, [], 0, Returned)
  }

  /**
   * A query that finds five songs: the prompt is deleted, the list is
   * sent, and the selection keys replace 'waiting_for_query' while
   * 'query_message_id' stays.
   */
  lemma QueryFindsFive(results: seq<Song>, directory: string)
    requires |results| == 5
    ensures HandleMessageStep(map[WaitingForQuery := Flag, QueryMessageId := Id(101)], 3,
                              "imagine dragons believer", 102, Success(results), Pass, directory)
      == Step(map[QueryMessageId := Id(101), WaitingForSelection := Flag, Songs := Entries(results),
                  ReplyMessageId := Id(102), LastQueryMessageId := Id(3)],
              [Delete(101), Search(SearchQuery("imagine dragons believer")), Reply(102, ReplyText(results))],
              1, Returned)
  {
  }

  /**
   * Choosing "2" from that list downloads and sends the second song,
   * deletes the list, the query, the notice and the choice, and leaves
   * only 'query_message_id' in user_data.
   */
  lemma SecondOfFiveChosen(results: seq<Song>, directory: string)
    requires |results| == 5
    ensures var path := DownloadPath(directory, results[1].title);
      HandleMessageStep(map[QueryMessageId := Id(101), WaitingForSelection := Flag, Songs := Entries(results),
                            ReplyMessageId := Id(102), LastQueryMessageId := Id(3)],
                        4, "2", 103, Failure("unused"), Pass, directory)
      == Step(map[QueryMessageId := Id(101)],
              [Reply(103, DownloadNotice(results[1].title)), Download(results[1].url, path),
               SendAudio(104, path), RemoveFile(path), Delete(102), Delete(3), Delete(103), Delete(4)],
              2, Returned)
  {
    TwoIsSecond();
    var d := map[QueryMessageId := Id(101), WaitingForSelection := Flag, Songs := Entries(results),
                 ReplyMessageId := Id(102), LastQueryMessageId := Id(3)];
    assert WellFormed(d) && WaitingForQuery !in d && WaitingForSelection in d;
    assert d[Songs].songs == results;
    ChosenSongSent(d, 4, "2", 103, Failure("unused"), directory, 2);
    assert d - SelectionKeys == map[QueryMessageId := Id(101)];
  }

  /** The text "2" chooses the second song. */
  lemma TwoIsSecond()
    ensures ParseSelection("2") == Some(2)
  {
    SelectionTexts("2", 2);
    assert DigitChar(2) == '2';
  }

  /**
   * A message holding a listed number, while a selection is pending and the
   * download succeeds, sends that song and clears the selection.
   */
  lemma ChosenSongSent(d: UserData, message: MessageId, text: string, nextId: MessageId,
                       search: Result<seq<Song>, string>, directory: string, k: nat)
    requires WellFormed(d) && WaitingForQuery !in d && WaitingForSelection in d
    requires ParseSelection(text) == Some(k) && k <= |d[Songs].songs|
    ensures var song := d[Songs].songs[k - 1];
      var path := DownloadPath(directory, song.title);
      HandleMessageStep(d, message, text, nextId, search, Pass, directory)
      == Step(d - SelectionKeys,
              [Reply(nextId, DownloadNotice(song.title)), Download(song.url, path),
               SendAudio(nextId + 1, path), RemoveFile(path),
               Delete(d[ReplyMessageId].id), Delete(d[LastQueryMessageId].id),
               Delete(nextId), Delete(message)],
              2, Returned)
  {
    var song := d[Songs].songs[k - 1];
    DownloadSucceeds(d, message, nextId, song, DownloadPath(directory, song.title));
  }

  /** The whole of a successful download, as one list of effects. */
  lemma DownloadSucceeds(d: UserData, message: MessageId, nextId: MessageId, song: Song, path: string)
    requires WellFormed(d) && WaitingForSelection in d
    ensures DownloadStep(d, message, nextId, song, path, Pass)
      == Step(d - SelectionKeys,
              [Reply(nextId, DownloadNotice(song.title)), Download(song.url, path),
               SendAudio(nextId + 1, path), RemoveFile(path),
               Delete(d[ReplyMessageId].id), Delete(d[LastQueryMessageId].id),
               Delete(nextId), Delete(message)],
              2, Returned)
  {
    var s := DownloadStep(d, message, nextId, song, path, Pass);
    assert s.effects == s.effects[..2] + s.effects[2..];
  }
}
