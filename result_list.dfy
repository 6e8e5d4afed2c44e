/**
 * The numbered list of search results that handle_message sends
 * (telegram_bot.py:63-70).
 */
module ResultList {
  import opened Wrappers
  import opened Decimal
  import opened Durations
  import opened Lines

  /**
   * One search result. 'title' and 'url' are read with song[...]; the
   * 'uploader' and 'duration' keys may be absent (None).
   */
  datatype Song = Song(title: string, url: string, uploader: Option<string>, duration: Option<nat>)

  const Header: string := "Выберите номер песни:"
  const DurationLabel: string := " | Длительность: "

  /** song.get('uploader', 'Unknown') */
  function UploaderText(song: Song): (r: string)
    ensures song.uploader.None? ==> r == "Unknown"
    ensures song.uploader.Some? ==> r == song.uploader.value
  {
    match song.uploader
    case Some(name) => name
    case None => "Unknown"
  }

  /**
   * format_duration(song['duration']) if 'duration' in song else 'N/A':
   * "N/A" stands for exactly the songs without a duration.
   */
  function DurationText(duration: Option<nat>): (r: string)
    ensures r == "N/A" <==> duration.None?
    ensures duration.Some? ==> r == FormatDuration(duration.value)
    ensures '\n' !in r
  {
    match duration
    case None => "N/A"
    case Some(seconds) =>
      FormatDurationLayout(seconds);
      DurationHasNoNewline(seconds);
      FormatDuration(seconds)
  }

  /** The line f"{i + 1}. {title} by {uploader} | Длительность: {duration}" for number i + 1. */
  function OptionLine(number: nat, song: Song): string
  {
    NatToDecimal(number) + ". " + song.title + " by " + UploaderText(song) + DurationLabel + DurationText(song.duration)
  }

  /**
   * A line starts with its number and ". ", has something after them, and
   * holds no line break unless the title or the uploader brings one.
   */
  lemma OptionLineShape(number: nat, song: Song)
    ensures var r, prefix := OptionLine(number, song), NatToDecimal(number) + ". ";
      && |r| > |prefix|
      && r[..|prefix|] == prefix
      && ('\n' !in song.title && '\n' !in UploaderText(song) ==> '\n' !in r)
  {
    var digits, uploader, duration := NatToDecimal(number), UploaderText(song), DurationText(song.duration);
    var prefix := digits + ". ";
    var rest := song.title + " by " + uploader + DurationLabel + duration;
    var r := OptionLine(number, song);
    assert r == prefix + rest;
    assert '\n' !in digits by {
      assert forall i :: 0 <= i < |digits| ==> IsDigit(digits[i]);
    }
    if '\n' !in song.title && '\n' !in uploader {
      NoNewlineInJoin(digits, song.title, uploader, duration);
    }
  }

  /** The pieces of a line are glued with separators that hold no line break. */
  lemma NoNewlineInJoin(digits: string, title: string, uploader: string, duration: string)
    requires '\n' !in digits && '\n' !in title && '\n' !in uploader && '\n' !in duration
    ensures '\n' !in digits + ". " + title + " by " + uploader + DurationLabel + duration
  {
    assert '\n' !in DurationLabel;
  }

  /** music_options once the loop has run: line i (from 0) shows song i under number i + 1. */
  function OptionLines(songs: seq<Song>): (r: seq<string>)
    ensures |r| == |songs|
    ensures forall i :: 0 <= i < |songs| ==> r[i] == OptionLine(i + 1, songs[i])
  {
    seq(|songs|, i requires 0 <= i < |songs| => OptionLine(i + 1, songs[i]))
  }

  /** The loop over enumerate(songs) that appends one line per song to music_options. */
  method FormatOptions(songs: seq<Song>) returns (options: seq<string>)
    ensures options == OptionLines(songs)
  {
    options := [];
    for i := 0 to |songs|
      invariant |options| == i
      invariant forall j :: 0 <= j < i ==> options[j] == OptionLine(j + 1, songs[j])
    {
      options := options + [OptionLine(i + 1, songs[i])];
    }
  }

  /** "Выберите номер песни:\n" + "\n".join(music_options) */
  function ReplyText(songs: seq<Song>): string
  {
    Header + "\n" + Join(OptionLines(songs), '\n')
  }

  /**
   * Read line by line, the reply is the header followed by one line per
   * song, in song order (or by one empty line when there are no songs),
   * provided no title or uploader holds a line break.
   */
  lemma ReplyTextLines(songs: seq<Song>)
    requires forall i :: 0 <= i < |songs| ==> '\n' !in songs[i].title && '\n' !in UploaderText(songs[i])
    ensures Split(ReplyText(songs), '\n') == [Header] + (if songs == [] then [""] else OptionLines(songs))
  {
    var lines := OptionLines(songs);
    forall i | 0 <= i < |songs| ensures '\n' !in lines[i] {
      OptionLineShape(i + 1, songs[i]);
    }
    assert '\n' !in Header;
    assert ReplyText(songs) == Header + ['\n'] + Join(lines, '\n');
    SplitAfterPiece(Header, '\n', Join(lines, '\n'));
    if songs == [] {
      assert Join(lines, '\n') == [];
    } else {
      SplitJoin(lines, '\n');
    }
  }
}
