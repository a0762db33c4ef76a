// The reservation heuristic (tokens.py).
module Tokens {
  import opened Model
  import opened Sums

  const PER_MESSAGE_OVERHEAD := 4
  const PRIMING_TOKENS := 2
  const CHARS_PER_TOKEN := 4

  // Four characters a token, rounded up.
  function CountTextTokens(text: string): (n: nat)
    ensures text == "" <==> n == 0
    ensures CHARS_PER_TOKEN * (n - 1) < |text| <= CHARS_PER_TOKEN * n || text == ""
  {
    if text == "" then 0 else Max(1, (|text| + CHARS_PER_TOKEN - 1) / CHARS_PER_TOKEN)
  }

  function JoinText(texts: seq<Option<string>>): string {
    if texts == [] then ""
    else
      var init := JoinText(texts[..|texts| - 1]);
      match texts[|texts| - 1]
      case None => init
      case Some(t) => if forall i :: 0 <= i < |texts| - 1 ==> texts[i].None? then t else init + " " + t
  }

  function TextOf(content: Content): string {
    match content
    case Text(text) => text
    case Parts(texts) => JoinText(texts)
    case NoText => ""
  }

  function MessageTokens(message: Message): (n: nat)
    ensures n >= PER_MESSAGE_OVERHEAD
  {
    PER_MESSAGE_OVERHEAD + CountTextTokens(TextOf(message.content))
    + if message.name.StringField? then CountTextTokens(message.name.s) else 0
  }

  function PromptTokens(messages: seq<Message>): (n: nat)
    ensures n >= PRIMING_TOKENS + PER_MESSAGE_OVERHEAD * |messages|
  {
    if messages == [] then PRIMING_TOKENS
    else PromptTokens(messages[..|messages| - 1]) + MessageTokens(messages[|messages| - 1])
  }

  method MessageText(content: Content) returns (text: string)
    ensures text == TextOf(content)
  {
    match content
    case Text(t) => text := t;
    case NoText => text := "";
    case Parts(texts) =>
      text := "";
      var first := true;
      for i := 0 to |texts|
        invariant text == JoinText(texts[..i])
        invariant first <==> forall j :: 0 <= j < i ==> texts[j].None?
      {
        assert texts[..i + 1][..i] == texts[..i];
        match texts[i] {
          case None =>
          case Some(t) =>
            text := if first then t else text + " " + t;
            first := false;
        }
      }
      assert texts[..|texts|] == texts;
  }

  method EstimatePromptTokens(messages: seq<Message>) returns (total: nat)
    ensures total == PromptTokens(messages)
  {
    total := PRIMING_TOKENS;
    for i := 0 to |messages|
      invariant total == PromptTokens(messages[..i])
    {
      assert messages[..i + 1][..i] == messages[..i];
      total := total + PER_MESSAGE_OVERHEAD;
      var text := MessageText(messages[i].content);
      total := total + CountTextTokens(text);
      if messages[i].name.StringField? {
        total := total + CountTextTokens(messages[i].name.s);
      }
    }
    assert messages[..|messages|] == messages;
  }

  // The more messages, the more tokens are held for them: an extension never costs less.
  lemma {:induction false} PromptTokensMonotone(messages: seq<Message>, more: seq<Message>)
    ensures PromptTokens(messages + more) >= PromptTokens(messages) + PER_MESSAGE_OVERHEAD * |more|
  {
    if more == [] {
      assert messages + more == messages;
    } else {
      PromptTokensMonotone(messages, more[..|more| - 1]);
      assert (messages + more)[..|messages + more| - 1] == messages + more[..|more| - 1];
    }
  }

  predicate Textless(texts: seq<Option<string>>) { forall i :: 0 <= i < |texts| ==> texts[i].None? }

  // The text parts are joined by single blanks; parts without text leave no trace.
  lemma {:induction false} JoinConcat(a: seq<Option<string>>, b: seq<Option<string>>)
    ensures JoinText(a + b) ==
            if Textless(a) then JoinText(b) else if Textless(b) then JoinText(a) else JoinText(a) + " " + JoinText(b)
  {
    if b == [] {
      assert a + b == a;
      if Textless(a) { JoinNothing(a); }
    } else {
      var n := |b| - 1;
      assert (a + b)[..|a + b| - 1] == a + b[..n];
      JoinConcat(a, b[..n]);
      assert b == b[..n] + [b[n]] && a + b == a + b[..n] + [b[n]];
      JoinNext(a, b[..n], b[n]);
    }
  }

  lemma {:induction false} JoinNext(a: seq<Option<string>>, b: seq<Option<string>>, x: Option<string>)
    requires JoinText(a + b) ==
             if Textless(a) then JoinText(b) else if Textless(b) then JoinText(a) else JoinText(a) + " " + JoinText(b)
    ensures JoinText(a + b + [x]) ==
            if Textless(a) then JoinText(b + [x])
            else if Textless(b + [x]) then JoinText(a) else JoinText(a) + " " + JoinText(b + [x])
  {
    JoinLast(a, b, x);
    if Textless(b) { JoinNothing(b); }
    TextlessNext(b, x);
    if x.Some? && !Textless(a) && !Textless(b) {
      Blanks(JoinText(a), JoinText(b), x.value);
    }
  }

  lemma TextlessNext(b: seq<Option<string>>, x: Option<string>)
    ensures Textless(b + [x]) <==> Textless(b) && x.None?
  {
    assert forall i :: 0 <= i < |b| ==> (b + [x])[i] == b[i];
    assert (b + [x])[|b|] == x;
  }

  lemma Blanks(a: string, b: string, c: string)
    ensures a + " " + b + " " + c == a + " " + (b + " " + c)
  {
  }

  lemma {:induction false} JoinOne(texts: seq<Option<string>>)
    requires |texts| == 1
    ensures JoinText(texts) == if texts[0].Some? then texts[0].value else ""
  {
    JoinLast([], [], texts[0]);
    assert texts == [] + [texts[0]] && texts == [] + [] + [texts[0]];
  }

  lemma {:induction false} JoinNothing(texts: seq<Option<string>>)
    requires Textless(texts)
    ensures JoinText(texts) == ""
  {
    if texts != [] { JoinNothing(texts[..|texts| - 1]); }
  }

  lemma {:induction false} JoinLast(a: seq<Option<string>>, b: seq<Option<string>>, x: Option<string>)
    ensures JoinText(a + b + [x]) ==
            if x.None? then JoinText(a + b)
            else if Textless(a) && Textless(b) then x.value else JoinText(a + b) + " " + x.value
    ensures JoinText(b + [x]) ==
            if x.None? then JoinText(b) else if Textless(b) then x.value else JoinText(b) + " " + x.value
  {
    assert (a + b + [x])[..|a + b|] == a + b && (b + [x])[..|b|] == b;
    assert Textless(a + b) <==> Textless(a) && Textless(b) by {
      assert forall i :: 0 <= i < |a| ==> (a + b)[i] == a[i];
      assert forall i :: 0 <= i < |b| ==> (a + b)[|a| + i] == b[i];
    }
  }

  // A quarter of the characters of a message's text and name, each rounded up.
  function TextCost(): Message -> int {
    (m: Message) =>
      (|TextOf(m.content)| + 3) / 4 + if m.name.StringField? then (|m.name.s| + 3) / 4 else 0
  }

  // An estimate is two tokens, four for each message, and what the texts cost.
  lemma {:induction false} PromptTokensAre(messages: seq<Message>)
    ensures PromptTokens(messages) == 2 + 4 * |messages| + Sum(messages, TextCost())
  {
    if messages != [] { PromptTokensAre(messages[..|messages| - 1]); }
  }
}
