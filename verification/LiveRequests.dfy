/** The requests a live evaluation sends: texts, the runner's token estimate, the client's byte bound,
    and how a transcript grows from one call to the next. */
module LiveRequests {
  import opened Base

  // ---- Texts and parts ----

  /** A text: its ASCII characters, its other characters, and the bytes those take. */
  datatype Text = Text(ascii: nat, others: nat, otherBytes: nat)
  {
    predicate Valid() { others <= otherBytes <= 4 * others }

    function Bytes(): nat { ascii + otherBytes }

    /** The runner's estimate: four ASCII characters to a token, other characters one each. */
    function Count(): nat { (ascii + 3) / 4 + others }

    /** How far the text falls short of four bytes for each estimated token. */
    function Loss(): int { 4 * Count() - Bytes() }
  }

  const EMPTY := Text(0, 0, 0)

  /** A message, a recorded action or a tool definition: its texts, and its fixed share of tokens. */
  datatype Part = Part(overhead: nat, texts: seq<Text>)
  {
    ghost predicate Valid() { forall i :: 0 <= i < |texts| ==> texts[i].Valid() }
  }

  ghost predicate ValidParts(parts: seq<Part>) {
    forall i :: 0 <= i < |parts| ==> parts[i].Valid()
  }

  function CountTexts(texts: seq<Text>): nat {
    if texts == [] then 0 else CountTexts(texts[..|texts| - 1]) + texts[|texts| - 1].Count()
  }

  function TextBytes(texts: seq<Text>): nat {
    if texts == [] then 0 else TextBytes(texts[..|texts| - 1]) + texts[|texts| - 1].Bytes()
  }

  function Count(parts: seq<Part>): nat {
    if parts == [] then 0
    else Count(parts[..|parts| - 1]) + parts[|parts| - 1].overhead + CountTexts(parts[|parts| - 1].texts)
  }

  function Bytes(parts: seq<Part>): nat {
    if parts == [] then 0 else Bytes(parts[..|parts| - 1]) + TextBytes(parts[|parts| - 1].texts)
  }

  function Cap(x: int): int {
    if x > MAX_INT64 then MAX_INT64 else x
  }

  /** The runner's token estimate of a request. */
  method EstimateRequest(parts: seq<Part>) returns (input: nat)
    ensures input == Count(parts)
  {
    input := 0;
    for i := 0 to |parts|
      invariant input == Count(parts[..i])
    {
      assert parts[..i + 1][..i] == parts[..i];
      var texts := parts[i].texts;
      input := input + parts[i].overhead;
      for j := 0 to |texts|
        invariant input == Count(parts[..i]) + parts[i].overhead + CountTexts(texts[..j])
      {
        assert texts[..j + 1][..j] == texts[..j];
        input := input + texts[j].Count();
      }
      assert texts[..|texts|] == texts;
    }
    assert parts[..|parts|] == parts;
  }

  /** The client's bound: 64 and every byte, saturating. */
  method ConservativeTokens(parts: seq<Part>) returns (total: int)
    ensures total == Cap(64 + Bytes(parts))
  {
    total := 64;
    for i := 0 to |parts|
      invariant total == Cap(64 + Bytes(parts[..i]))
    {
      assert parts[..i + 1][..i] == parts[..i];
      var texts := parts[i].texts;
      for j := 0 to |texts|
        invariant total == Cap(64 + Bytes(parts[..i]) + TextBytes(texts[..j]))
      {
        assert texts[..j + 1][..j] == texts[..j];
        if texts[j].Bytes() > MAX_INT64 - total {
          total := MAX_INT64;
        } else {
          total := total + texts[j].Bytes();
        }
      }
      assert texts[..|texts|] == texts;
    }
    assert parts[..|parts|] == parts;
  }

  /** The input tokens at which a request of given estimate and size is priced. */
  function PricedAt(count: int, bytes: int): int {
    if Cap(64 + bytes) > count then Cap(64 + bytes) else count
  }

  function ReservedInput(parts: seq<Part>): int {
    PricedAt(Count(parts), Bytes(parts))
  }

  lemma {:induction false} TextBytesBound(texts: seq<Text>)
    requires forall i :: 0 <= i < |texts| ==> texts[i].Valid()
    ensures TextBytes(texts) <= 4 * CountTexts(texts)
  {
    if texts != [] {
      TextBytesBound(texts[..|texts| - 1]);
    }
  }

  lemma {:induction false} BytesBound(parts: seq<Part>)
    requires ValidParts(parts)
    ensures Bytes(parts) <= 4 * Count(parts)
  {
    if parts != [] {
      BytesBound(parts[..|parts| - 1]);
      assert parts[|parts| - 1].Valid();
      TextBytesBound(parts[|parts| - 1].texts);
      hide CountTexts;
      hide TextBytes;
    }
  }

  /** A request is priced at no more than four tokens for each estimated one, and 64. */
  lemma ReservedAtMost(parts: seq<Part>)
    requires ValidParts(parts)
    ensures 0 <= ReservedInput(parts) <= 4 * Count(parts) + 64
  {
    BytesBound(parts);
  }

  lemma {:induction false} PartsAppend(a: seq<Part>, b: seq<Part>)
    ensures Count(a + b) == Count(a) + Count(b) && Bytes(a + b) == Bytes(a) + Bytes(b)
  {
    if b == [] {
      assert a + b == a;
    } else {
      assert (a + b)[..|a + b| - 1] == a + b[..|b| - 1];
      PartsAppend(a, b[..|b| - 1]);
      hide CountTexts;
      hide TextBytes;
    }
  }

  lemma OnePart(p: Part)
    ensures Count([p]) == p.overhead + CountTexts(p.texts) && Bytes([p]) == TextBytes(p.texts)
  {
    hide CountTexts;
    hide TextBytes;
    assert [p][..0] == [];
  }

  lemma TextsSnoc(texts: seq<Text>, t: Text)
    ensures CountTexts(texts + [t]) == CountTexts(texts) + t.Count()
    ensures TextBytes(texts + [t]) == TextBytes(texts) + t.Bytes()
  {
    assert (texts + [t])[..|texts|] == texts;
  }

  lemma ThreeTexts(a: Text, b: Text, c: Text)
    ensures CountTexts([a, b, c]) == a.Count() + b.Count() + c.Count()
    ensures TextBytes([a, b, c]) == a.Bytes() + b.Bytes() + c.Bytes()
  {
    TextsSnoc([], a);
    TextsSnoc([a], b);
    TextsSnoc([a, b], c);
    assert [] + [a] == [a] && [a] + [b] == [a, b] && [a, b] + [c] == [a, b, c];
  }

  lemma FourTexts(a: Text, b: Text, c: Text, d: Text)
    ensures CountTexts([a, b, c, d]) == a.Count() + b.Count() + c.Count() + d.Count()
    ensures TextBytes([a, b, c, d]) == a.Bytes() + b.Bytes() + c.Bytes() + d.Bytes()
  {
    ThreeTexts(a, b, c);
    TextsSnoc([a, b, c], d);
    assert [a, b, c] + [d] == [a, b, c, d];
  }

  // ---- One turn of a conversation ----

  // The roles and types the runner writes itself.
  const ASSISTANT := Text(9, 0, 0)
  const TOOL := Text(4, 0, 0)
  const TOOL_CALL := Text(9, 0, 0)
  const SYSTEM := Text(6, 0, 0)
  const FINAL_INSTRUCTION := Text(374, 0, 0)

  /** The message that replaces the tools on the last step. */
  const FINAL := Part(4, [SYSTEM, EMPTY, EMPTY, FINAL_INSTRUCTION])

  /** A tool use that a case's tools answer: the tool's name, the leanest arguments that get this
      reply, and the reply. */
  datatype Exchange = Exchange(name: Text, arguments: Text, reply: Text)
  {
    predicate Valid() {
      && name.Valid() && arguments.Valid() && reply.Valid()
      && name.Count() >= 1 && arguments.Count() >= 1
    }
  }

  /** A tool use the model asks for: which exchange it gets, and the texts it is free to choose. */
  datatype Use = Use(exchange: nat, id: Text, content: Text, arguments: Text)

  /** A response that goes on: an assistant message with one or more tool uses. */
  datatype Turn = Turn(name: Text, toolCallId: Text, content: Text, uses: seq<Use>)

  predicate ValidUse(es: seq<Exchange>, u: Use) {
    && u.exchange < |es| && u.id.Valid() && u.content.Valid() && u.arguments.Valid() && u.id.Count() >= 1
    && u.arguments.Count() >= es[u.exchange].arguments.Count()
    && u.arguments.Loss() >= es[u.exchange].arguments.Loss()
  }

  ghost predicate ValidTurn(es: seq<Exchange>, t: Turn) {
    && t.name.Valid() && t.toolCallId.Valid() && t.content.Valid() && t.uses != []
    && forall i :: 0 <= i < |t.uses| ==> ValidUse(es, t.uses[i])
  }

  function ActionPart(es: seq<Exchange>, u: Use): Part
    requires u.exchange < |es|
  {
    Part(4, [u.id, TOOL_CALL, es[u.exchange].name, u.content, u.arguments])
  }

  function ReplyPart(es: seq<Exchange>, u: Use): Part
    requires u.exchange < |es|
  {
    Part(4, [TOOL, es[u.exchange].name, u.id, es[u.exchange].reply])
  }

  ghost predicate Answerable(es: seq<Exchange>, uses: seq<Use>) {
    forall i :: 0 <= i < |uses| ==> uses[i].exchange < |es|
  }

  function ActionParts(es: seq<Exchange>, uses: seq<Use>): seq<Part>
    requires Answerable(es, uses)
  {
    seq(|uses|, i requires 0 <= i < |uses| => ActionPart(es, uses[i]))
  }

  function ReplyParts(es: seq<Exchange>, uses: seq<Use>): seq<Part>
    requires Answerable(es, uses)
  {
    seq(|uses|, i requires 0 <= i < |uses| => ReplyPart(es, uses[i]))
  }

  /** What a turn adds to the transcript: the assistant message with its actions, then the replies. */
  function TurnParts(es: seq<Exchange>, t: Turn): seq<Part>
    requires Answerable(es, t.uses)
  {
    [Part(4, [ASSISTANT, t.name, t.toolCallId, t.content])] + ActionParts(es, t.uses) + ReplyParts(es, t.uses)
  }

  /** The fewest tokens a turn with a given exchange adds. */
  function Growth(e: Exchange): nat {
    21 + 2 * e.name.Count() + e.arguments.Count() + e.reply.Count()
  }

  /** The fewest bytes such a turn falls short of four for each token beyond its fixed share. */
  function TurnLoss(e: Exchange): int {
    6 + 2 * e.name.Loss() + e.arguments.Loss() + e.reply.Loss()
  }

  lemma ActionSize(es: seq<Exchange>, u: Use)
    requires u.exchange < |es|
    ensures var p, e := ActionPart(es, u), es[u.exchange];
      && Count([p]) == 7 + u.id.Count() + e.name.Count() + u.content.Count() + u.arguments.Count()
      && Bytes([p]) == 9 + u.id.Bytes() + e.name.Bytes() + u.content.Bytes() + u.arguments.Bytes()
  {
    var e := es[u.exchange];
    OnePart(ActionPart(es, u));
    FourTexts(u.id, TOOL_CALL, e.name, u.content);
    TextsSnoc([u.id, TOOL_CALL, e.name, u.content], u.arguments);
    assert [u.id, TOOL_CALL, e.name, u.content] + [u.arguments] == ActionPart(es, u).texts;
    hide CountTexts;
    hide TextBytes;
  }

  lemma ReplySize(es: seq<Exchange>, u: Use)
    requires u.exchange < |es|
    ensures var p, e := ReplyPart(es, u), es[u.exchange];
      && Count([p]) == 5 + e.name.Count() + u.id.Count() + e.reply.Count()
      && Bytes([p]) == 4 + e.name.Bytes() + u.id.Bytes() + e.reply.Bytes()
  {
    var e := es[u.exchange];
    OnePart(ReplyPart(es, u));
    FourTexts(TOOL, e.name, u.id, e.reply);
    hide CountTexts;
    hide TextBytes;
  }

  lemma AssistantSize(t: Turn)
    ensures var p := Part(4, [ASSISTANT, t.name, t.toolCallId, t.content]);
      && Count([p]) == 7 + t.name.Count() + t.toolCallId.Count() + t.content.Count()
      && Bytes([p]) == 9 + t.name.Bytes() + t.toolCallId.Bytes() + t.content.Bytes()
  {
    OnePart(Part(4, [ASSISTANT, t.name, t.toolCallId, t.content]));
    FourTexts(ASSISTANT, t.name, t.toolCallId, t.content);
    hide CountTexts;
    hide TextBytes;
  }

  lemma SplitUses(es: seq<Exchange>, uses: seq<Use>)
    requires Answerable(es, uses) && uses != []
    ensures Answerable(es, uses[1..])
    ensures ActionParts(es, uses) == [ActionPart(es, uses[0])] + ActionParts(es, uses[1..])
    ensures ReplyParts(es, uses) == [ReplyPart(es, uses[0])] + ReplyParts(es, uses[1..])
  {
  }

  ghost predicate ValidExchanges(es: seq<Exchange>) {
    forall i :: 0 <= i < |es| ==> es[i].Valid()
  }

  lemma MorePartsValid(es: seq<Exchange>, uses: seq<Use>)
    requires ValidExchanges(es) && forall i :: 0 <= i < |uses| ==> ValidUse(es, uses[i])
    ensures Answerable(es, uses)
    ensures ValidParts(ActionParts(es, uses)) && ValidParts(ReplyParts(es, uses))
  {
    assert Answerable(es, uses);
    forall i | 0 <= i < |uses| ensures ActionParts(es, uses)[i].Valid() && ReplyParts(es, uses)[i].Valid() {
      assert ValidUse(es, uses[i]) && es[uses[i].exchange].Valid();
    }
  }

  lemma FirstUse(es: seq<Exchange>, u: Use)
    requires ValidExchanges(es) && ValidUse(es, u)
    ensures var e := es[u.exchange];
      var count := Count([ActionPart(es, u)]) + Count([ReplyPart(es, u)]);
      var bytes := Bytes([ActionPart(es, u)]) + Bytes([ReplyPart(es, u)]);
      count + 7 >= Growth(e) && bytes <= 4 * (count - 8) - (TurnLoss(e) - 3)
  {
    ActionSize(es, u);
    ReplySize(es, u);
    hide Count;
    hide Bytes;
  }

  lemma TurnSplits(es: seq<Exchange>, t: Turn)
    requires Answerable(es, t.uses) && t.uses != []
    ensures Answerable(es, t.uses[1..])
    ensures var first, rest := t.uses[0], t.uses[1..];
      var head := Part(4, [ASSISTANT, t.name, t.toolCallId, t.content]);
      && Count(TurnParts(es, t)) == Count([head]) + Count([ActionPart(es, first)]) + Count([ReplyPart(es, first)])
                                    + Count(ActionParts(es, rest)) + Count(ReplyParts(es, rest))
      && Bytes(TurnParts(es, t)) == Bytes([head]) + Bytes([ActionPart(es, first)]) + Bytes([ReplyPart(es, first)])
                                    + Bytes(ActionParts(es, rest)) + Bytes(ReplyParts(es, rest))
  {
    SplitUses(es, t.uses);
    var first, rest := t.uses[0], t.uses[1..];
    var head := [Part(4, [ASSISTANT, t.name, t.toolCallId, t.content])];
    PartsAppend(head + ActionParts(es, t.uses), ReplyParts(es, t.uses));
    PartsAppend(head, ActionParts(es, t.uses));
    PartsAppend([ActionPart(es, first)], ActionParts(es, rest));
    PartsAppend([ReplyPart(es, first)], ReplyParts(es, rest));
    hide Count;
    hide Bytes;
    hide ActionPart;
    hide ReplyPart;
  }

  /** Every turn adds at least its first exchange's growth, and few bytes for its tokens. */
  lemma TurnBound(es: seq<Exchange>, t: Turn)
    requires ValidExchanges(es) && ValidTurn(es, t)
    ensures Answerable(es, t.uses) && t.uses[0].exchange < |es|
    ensures var e := es[t.uses[0].exchange];
      && Count(TurnParts(es, t)) >= Growth(e)
      && Bytes(TurnParts(es, t)) <= 4 * (Count(TurnParts(es, t)) - 12) - TurnLoss(e)
  {
    var first, rest := t.uses[0], t.uses[1..];
    assert ValidUse(es, first);
    MorePartsValid(es, t.uses);
    MorePartsValid(es, rest);
    hide ValidUse;
    FirstUse(es, first);
    AssistantSize(t);
    TurnSplits(es, t);
    BytesBound(ActionParts(es, rest));
    BytesBound(ReplyParts(es, rest));
    hide Growth;
    hide TurnLoss;
    hide Count;
    hide Bytes;
    hide TurnParts;
    hide ActionParts;
    hide ReplyParts;
    hide ActionPart;
    hide ReplyPart;
  }

  /** A turn of exactly x tokens with one lean use, the rest of them four-byte-a-token content. */
  function FullTurn(es: seq<Exchange>, u: nat, x: nat): Turn
    requires u < |es| && x >= Growth(es[u])
  {
    Turn(EMPTY, EMPTY, Text(4 * (x - Growth(es[u])), 0, 0), [Use(u, Text(4, 0, 0), EMPTY, es[u].arguments)])
  }

  lemma FullTurnSize(es: seq<Exchange>, u: nat, x: nat)
    requires ValidExchanges(es) && u < |es| && x >= Growth(es[u])
    ensures var t := FullTurn(es, u, x);
      && ValidTurn(es, t) && t.uses[0].exchange == u && Answerable(es, t.uses)
      && Count(TurnParts(es, t)) == x && Bytes(TurnParts(es, t)) == 4 * (x - 12) - TurnLoss(es[u])
  {
    hide *;
    var t, e := FullTurn(es, u, x), es[u];
    FullTurnFacts(es, u, x);
    TurnSplits(es, t);
    AssistantSize(t);
    ActionSize(es, t.uses[0]);
    ReplySize(es, t.uses[0]);
    NoUses(es);
    PlainText(0);
    PlainText(1);
    PlainText(x - Growth(e));
    ExchangeSizes(e);
  }

  lemma FullTurnFacts(es: seq<Exchange>, u: nat, x: nat)
    requires ValidExchanges(es) && u < |es| && x >= Growth(es[u])
    ensures var t := FullTurn(es, u, x);
      && ValidTurn(es, t) && Answerable(es, t.uses) && |t.uses| == 1 && t.uses[1..] == []
      && t.uses[0] == Use(u, Text(4 * 1, 0, 0), Text(4 * 0, 0, 0), es[u].arguments)
      && t.name == Text(4 * 0, 0, 0) && t.toolCallId == Text(4 * 0, 0, 0)
      && t.content == Text(4 * (x - Growth(es[u])), 0, 0)
  {
    hide Growth;
    assert es[u].Valid();
  }

  lemma PlainText(m: nat)
    ensures Text(4 * m, 0, 0).Count() == m && Text(4 * m, 0, 0).Bytes() == 4 * m
  {
  }

  /** A text counts its other characters one by one, and a token for every four ASCII characters begun. */
  lemma CountMeans(t: Text)
    ensures t.ascii <= 4 * (t.Count() - t.others) < t.ascii + 4
    ensures t.Bytes() == t.ascii + t.otherBytes
  {
  }

  lemma ExchangeSizes(e: Exchange)
    ensures Growth(e) == 21 + 2 * e.name.Count() + e.arguments.Count() + e.reply.Count()
    ensures TurnLoss(e) == 6 + 2 * (4 * e.name.Count() - e.name.Bytes())
                           + (4 * e.arguments.Count() - e.arguments.Bytes()) + (4 * e.reply.Count() - e.reply.Bytes())
  {
  }

  lemma NoUses(es: seq<Exchange>)
    ensures Answerable(es, [])
    ensures Count(ActionParts(es, [])) == 0 && Count(ReplyParts(es, [])) == 0
    ensures Bytes(ActionParts(es, [])) == 0 && Bytes(ReplyParts(es, [])) == 0
  {
  }
}
