/**
  Token loop, speech client and segment ledger together: what a turn records as the assistant's message is what
  the ledger committed as spoken.
*/
module EndToEnd {
  import opened Wrappers
  import opened Text
  import opened Segmenter
  import TokenLoop
  import S = SpeechTurns
  import L = SegmentLedger

  /** What the turn submits: the segments as they are fed, then the tail as the final segment. */
  function Submitted(tokens: seq<string>, l: Limits): seq<string>
    requires ValidLimits(l)
  {
    var loop := TokenLoop.Consume(tokens, l);
    loop.spoken + [Strip(loop.buffer)]
  }

  /** The texts of the first n ordinals of a ledger; `text` reads a content digest back. */
  function Spoken(ledger: L.Ledger, text: nat -> string, n: nat): seq<string> {
    if n == 0 then []
    else Spoken(ledger, text, n - 1)
         + [if L.Named(n - 1) in ledger.segments then text(ledger.segments[L.Named(n - 1)].digest) else []]
  }

  lemma {:induction false} SpokenIs(ledger: L.Ledger, text: nat -> string, texts: seq<string>, n: nat)
    requires n <= |texts|
    requires forall k: nat | k < n :: L.Named(k) in ledger.segments && text(ledger.segments[L.Named(k)].digest) == texts[k]
    ensures Spoken(ledger, text, n) == texts[..n]
  {
    if n != 0 {
      SpokenIs(ledger, text, texts, n - 1);
    }
  }

  /** Whenever the speech turn of a token stream ends normally, the texts the ledger committed, in ordinal order,
      carry exactly the visible characters of the recorded text, which is the whole token stream. */
  lemma RecordedIsSpoken(tokens: seq<string>, l: Limits, events: seq<S.Event>, text: nat -> string)
    requires ValidLimits(l) && Words(TokenLoop.Joined(tokens)) > 0
    requires var client := S.Run(S.Start(), events).client;
             && client.terminal == Some(S.Normal) && |client.entered| == |Submitted(tokens, l)|
             && forall k | 0 <= k < |client.entered| :: text(client.entered[k].digest) == Submitted(tokens, l)[k]
    ensures var ledger := S.Run(S.Start(), events).turn.ledger;
            && ledger.state == L.Completed
            && TokenLoop.Consume(tokens, l).recorded == TokenLoop.Joined(tokens)
            && Visible(Concat(Spoken(ledger, text, ledger.next))) == Visible(TokenLoop.Joined(tokens))
  {
    hide S.Run, TokenLoop.Consume, Visible, Words, Strip;
    S.NormalMeansSpokenInFull(events);
    TokenLoop.SpokenIsRecorded(tokens, l);
    var ledger := S.Run(S.Start(), events).turn.ledger;
    SpokenIs(ledger, text, Submitted(tokens, l), ledger.next);
    assert Submitted(tokens, l)[..ledger.next] == Submitted(tokens, l);
  }
}
