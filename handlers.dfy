/**
 * The four handlers of telegram_bot.py (start, search_music,
 * handle_message, handle_selection) as methods that update one user's
 * context.user_data in place and append what they do to the chat to a log.
 * Each is proved to have exactly the net effect that Session describes.
 */
module Handlers {
  import opened Wrappers
  import opened Decimal
  import opened Lines
  import opened Filenames
  import opened ResultList
  import opened Session

  /**
   * One user's conversation with the bot: their user_data, everything the
   * handlers did so far, and the id the next message the bot sends will get.
   */
  class Conversation {
    var userData: UserData
    var log: seq<Effect>
    var nextId: MessageId

    ghost predicate Valid()
      reads this
    {
      WellFormed(userData)
    }

    /** A user the bot has not heard from: empty user_data, nothing done yet. */
    constructor (firstId: MessageId)
      ensures Valid()
      ensures userData == map[] && log == [] && nextId == firstId
    {
      userData := map[];
      log := [];
      nextId := firstId;
    }

    /** Records an effect that sends no message. */
    method Perform(e: Effect)
      modifies this
      ensures userData == old(userData) && nextId == old(nextId)
      ensures log == old(log) + [e]
    {
      log := log + [e];
    }

    /** update.message.reply_text(text): the new message takes the next id. */
    method SendReply(text: string) returns (id: MessageId)
      modifies this
      ensures id == old(nextId) && nextId == old(nextId) + 1
      ensures userData == old(userData)
      ensures log == old(log) + [Reply(id, text)]
    {
      id := nextId;
      log := log + [Reply(id, text)];
      nextId := nextId + 1;
    }

    /** update.message.reply_audio(...): the audio message takes the next id. */
    method SendAudioFile(path: string) returns (id: MessageId)
      modifies this
      ensures id == old(nextId) && nextId == old(nextId) + 1
      ensures userData == old(userData)
      ensures log == old(log) + [SendAudio(id, path)]
    {
      id := nextId;
      log := log + [SendAudio(id, path)];
      nextId := nextId + 1;
    }

    /** start */
    method Start(message: MessageId)
      requires Valid()
      modifies this
      ensures Valid()
      ensures var s := StartStep(old(userData), message, old(nextId));
        userData == s.data && log == old(log) + s.effects && nextId == old(nextId) + s.used
    {
      Perform(Delete(message));
      var greeting := SendReply(Greeting);
      userData := userData[StartMessageId := Id(greeting)];
    }

    /** search_music */
    method SearchMusic(message: MessageId)
      requires Valid()
      modifies this
      ensures Valid()
      ensures var s := SearchMusicStep(old(userData), message, old(nextId));
        userData == s.data && log == old(log) + s.effects && nextId == old(nextId) + s.used
    {
      Perform(Delete(message));
      if StartMessageId in userData {
        Perform(Delete(userData[StartMessageId].id));
        userData := userData - {StartMessageId};
      } else {
        assert userData - {StartMessageId} == userData;
      }
      var prompt := SendReply(QueryPrompt);
      userData := userData[WaitingForQuery := Flag];
      userData := userData[QueryMessageId := Id(prompt)];
    }

    /**
     * handle_message, with the outcome of the search and of the download
     * it may start given as parameters.
     */
    method HandleMessage(message: MessageId, text: string, search: Result<seq<Song>, string>,
                         download: Outcome<string>, directory: string) returns (exit: Exit)
      requires Valid()
      modifies this
      ensures Valid()
      ensures var s := HandleMessageStep(old(userData), message, text, old(nextId), search, download, directory);
        && userData == s.data && log == old(log) + s.effects && nextId == old(nextId) + s.used
        && exit == s.exit
    {
      if WaitingForQuery in userData {
        HandleQuery(message, text, search);
        exit := Returned;
      } else if WaitingForSelection in userData {
        exit := HandleSelection(message, text, download, directory);
      } else {
        exit := Returned;
      }
    }

    /** The 'waiting_for_query' branch of handle_message. */
    method HandleQuery(message: MessageId, text: string, search: Result<seq<Song>, string>)
      requires Valid() && WaitingForQuery in userData
      modifies this
      ensures Valid()
      ensures var s := QueryStep(old(userData), message, text, old(nextId), search);
        userData == s.data && log == old(log) + s.effects && nextId == old(nextId) + s.used
    {
      if text == [] {
        var _ := SendReply(EmptyQueryPrompt);
        return;
      }
      ghost var d, asked := userData, log + [Delete(userData[QueryMessageId].id), Search(SearchQuery(text))];
      Perform(Delete(userData[QueryMessageId].id));
      Perform(Search(SearchQuery(text)));
      assert log == asked;
      match search
      case Failure(error) =>
        var _ := SendReply(SearchErrorText(error));
      case Success(songs) =>
        ListResults(message, songs);
        assert userData == AwaitSelection(d, songs, old(nextId), message);
        assert log == asked + [Reply(old(nextId), ReplyText(songs))];
    }

    /**
     * The end of the 'waiting_for_query' branch: the numbered list is sent
     * and user_data switches from waiting for a query to waiting for a
     * selection.
     */
    method ListResults(message: MessageId, songs: seq<Song>)
      requires Valid()
      modifies this
      ensures Valid()
      ensures userData == AwaitSelection(old(userData), songs, old(nextId), message)
      ensures log == old(log) + [Reply(old(nextId), ReplyText(songs))]
      ensures nextId == old(nextId) + 1
    {
      var options := FormatOptions(songs);
      var list := SendReply(Header + "\n" + Join(options, '\n'));
      ghost var d := userData;
      userData := userData[WaitingForSelection := Flag];
      userData := userData[Songs := Entries(songs)];
      userData := userData[ReplyMessageId := Id(list)];
      userData := userData[LastQueryMessageId := Id(message)];
      userData := userData - {WaitingForQuery};
      assert userData == AwaitSelection(d, songs, list, message);
    }

    /** handle_selection */
    method HandleSelection(message: MessageId, text: string, download: Outcome<string>,
                           directory: string) returns (exit: Exit)
      requires Valid() && WaitingForSelection in userData
      modifies this
      ensures Valid()
      ensures var s := SelectionStep(old(userData), message, text, old(nextId), download, directory);
        && userData == s.data && log == old(log) + s.effects && nextId == old(nextId) + s.used
        && exit == s.exit
    {
      var choice := ParseSelection(text);
      if choice.None? {
        var _ := SendReply(RangePrompt);
        return Returned;
      }
      if choice.value > |userData[Songs].songs| {
        return Raised("IndexError");
      }
      var song := userData[Songs].songs[choice.value - 1];
      DownloadSong(message, song, DownloadPath(directory, song.title), download);
      exit := Returned;
    }

    /** The part of handle_selection after a song is chosen; path is where it is downloaded to. */
    method DownloadSong(message: MessageId, song: Song, path: string, download: Outcome<string>)
      requires Valid() && WaitingForSelection in userData
      modifies this
      ensures Valid()
      ensures var s := DownloadStep(old(userData), message, old(nextId), song, path, download);
        userData == s.data && log == old(log) + s.effects && nextId == old(nextId) + s.used
    {
      var notice := SendReply(DownloadNotice(song.title));
      Perform(Download(song.url, path));
      if download.Fail? {
        var _ := SendReply(DownloadErrorText(download.error));
        return;
      }
      Deliver(message, notice, path);
    }

    /**
     * handle_selection once the download has succeeded: send the audio,
     * remove the file, delete the list, the query, the notice and the
     * choice, then drop the four selection keys.
     */
    method Deliver(message: MessageId, notice: MessageId, path: string)
      requires Valid() && WaitingForSelection in userData
      modifies this
      ensures Valid()
      ensures userData == old(userData) - SelectionKeys
      ensures nextId == old(nextId) + 1
      ensures log == old(log) + [SendAudio(old(nextId), path), RemoveFile(path),
                                 Delete(old(userData)[ReplyMessageId].id),
                                 Delete(old(userData)[LastQueryMessageId].id),
                                 Delete(notice), Delete(message)]
    {
      var _ := SendAudioFile(path);
      Perform(RemoveFile(path));
      Perform(Delete(userData[ReplyMessageId].id));
      Perform(Delete(userData[LastQueryMessageId].id));
      Perform(Delete(notice));
      Perform(Delete(message));
      ClearSelectionKeepsWellFormed(userData);
      // the four del statements of telegram_bot.py:118-121, as one subtraction
      userData := userData - {WaitingForSelection, Songs, ReplyMessageId, LastQueryMessageId};
    }
  }

  /**
   * A whole conversation: /start (message 1), /music (2), a query (3) that
   * finds five songs, and the choice "2" (4), with the bot's messages
   * numbered from 100. The second song is sent, every message of the
   * exchange except the query prompt is deleted, and of user_data only
   * 'query_message_id' is left, since no handler removes it.
   */
  method ChooseSecondOfFive(results: seq<Song>, directory: string)
    returns (data: UserData, effects: seq<Effect>, exits: seq<Exit>)
    requires |results| == 5
    ensures data == map[QueryMessageId := Id(101)]
    ensures exits == [Returned, Returned]
    ensures var query := "imagine dragons believer";
      var path := DownloadPath(directory, results[1].title);
      effects ==
        [Delete(1), Reply(100, Greeting)]
        + [Delete(2), Delete(100), Reply(101, QueryPrompt)]
        + [Delete(101), Search(SearchQuery(query)), Reply(102, ReplyText(results))]
        + [Reply(103, DownloadNotice(results[1].title)), Download(results[1].url, path),
           SendAudio(104, path), RemoveFile(path), Delete(102), Delete(3), Delete(103), Delete(4)]
  {
    var c := new Conversation(100);
    c.Start(1);
    assert c.userData == map[StartMessageId := Id(100)];
    ghost var started := c.log;
    assert started == [Delete(1), Reply(100, Greeting)];
    c.SearchMusic(2);
    assert c.userData == map[WaitingForQuery := Flag, QueryMessageId := Id(101)];
    assert c.log == started + [Delete(2), Delete(100), Reply(101, QueryPrompt)];
    ghost var prompted := c.log;
    QueryFindsFive(results, directory);
    var found := c.HandleMessage(3, "imagine dragons believer", Success(results), Pass, directory);
    assert c.log == prompted + [Delete(101), Search(SearchQuery("imagine dragons believer")), Reply(102, ReplyText(results))];
    SecondOfFiveChosen(results, directory);
    var sent := c.HandleMessage(4, "2", Failure("unused"), Pass, directory);
    data, effects, exits := c.userData, c.log, [found, sent];
  }
}
