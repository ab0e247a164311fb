/**
 The channel list of an event: joined with commas when it is published, split
 again when an entry is read from the stream.
 */
module Channels {

  /** `",".join(channels)` */
  function Join(channels: seq<string>): string {
    if |channels| == 0 then ""
    else if |channels| == 1 then channels[0]
    else channels[0] + "," + Join(channels[1..])
  }

  /** `text.split(",")`: always at least one piece. */
  function Split(text: string): (pieces: seq<string>)
    ensures |pieces| >= 1
  {
    if text == "" then [""]
    else
      var rest := Split(text[1..]);
      if text[0] == ',' then [""] + rest
      else [[text[0]] + rest[0]] + rest[1..]
  }

  /** The channel set of a parsed entry: empty pieces are discarded. */
  function ParseChannels(text: string): set<string> {
    set c | c in Split(text) && c != ""
  }

  /** `Subscription.wants`: not disjoint. */
  predicate Wants(mine: set<string>, published: set<string>) {
    !(mine !! published)
  }

  /** What a channel name must look like to survive the trip. */
  predicate Plain(channel: string) { channel != "" && ',' !in channel }

  lemma {:induction false} SplitPiece(piece: string, rest: string)
    requires ',' !in piece
    ensures Split(piece + "," + rest) == [piece] + Split(rest)
    ensures Split(piece) == [piece]
  {
    if piece == "" {
      assert piece + "," + rest == [','] + rest;
    } else {
      SplitPiece(piece[1..], rest);
      assert (piece + "," + rest)[1..] == piece[1..] + "," + rest;
      assert (piece + "," + rest)[0] == piece[0] != ',';
      assert [piece[0]] + piece[1..] == piece;
    }
  }

  lemma {:induction false} SplitIsCommaFree(text: string)
    ensures forall c | c in Split(text) :: ',' !in c
  {
    if text != "" {
      SplitIsCommaFree(text[1..]);
    }
  }

  lemma {:induction false} SplitUndoesJoin(channels: seq<string>)
    requires channels != []
    requires forall c | c in channels :: ',' !in c
    ensures Split(Join(channels)) == channels
  {
    if |channels| == 1 {
      SplitPiece(channels[0], "");
    } else {
      SplitUndoesJoin(channels[1..]);
      SplitPiece(channels[0], Join(channels[1..]));
    }
  }

  /** Publishing and parsing undo each other exactly when every channel is
      non-empty and free of commas. */
  lemma PublishThenParse(channels: seq<string>)
    ensures ParseChannels(Join(channels)) == (set c | c in channels)
            <==> forall c | c in channels :: Plain(c)
  {
    var all := set c | c in channels;
    var parsed := ParseChannels(Join(channels));
    SplitIsCommaFree(Join(channels));
    if c :| c in channels && !Plain(c) {
      assert c in all && c !in parsed;
    } else if channels != [] {
      SplitUndoesJoin(channels);
      forall c ensures c in parsed <==> c in all {
        if c in all { assert Plain(c); }
      }
    }
  }

  /** A subscriber wants an event exactly when it shares a published channel. */
  lemma WantsSharedChannel(mine: set<string>, channels: seq<string>)
    requires forall c | c in channels :: Plain(c)
    ensures Wants(mine, ParseChannels(Join(channels))) <==> exists c :: c in channels && c in mine
  {
    PublishThenParse(channels);
    if Wants(mine, ParseChannels(Join(channels))) {
      var c :| c in mine && c in ParseChannels(Join(channels));
    }
  }
}
