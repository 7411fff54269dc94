/** The typing indicator's text: who, besides the current user, is typing.
    The text is `None` when the indicator renders nothing. */
module TypingIndicator {
  import opened ChatTypes

  const IsTypingSuffix := " is typing..."
  const AreTypingSuffix := " are typing..."
  const PeopleSuffix := " people are typing..."

  /** The typing users other than `current`, in the order the server listed
      them. */
  function OtherTypingUsers(typing: seq<string>, current: string): (r: seq<string>)
    ensures current !in r
    ensures forall u :: u in r <==> u in typing && u != current
  {
    Filter(typing, (u: string) => u != current)
  }

  /** The filter works element by element: the others of a concatenation are
      the others of each part, so no one is reordered. */
  lemma OtherTypingUsersConcat(a: seq<string>, b: seq<string>, current: string)
    ensures OtherTypingUsers(a + b, current) == OtherTypingUsers(a, current) + OtherTypingUsers(b, current)
  {
    FilterConcat(a, b, (u: string) => u != current);
  }

  /** A one-element list keeps its user exactly when it is someone else. */
  lemma OtherTypingUsersSingle(u: string, current: string)
    ensures OtherTypingUsers([u], current) == if u == current then [] else [u]
  {
    assert [u][1..] == [];
  }

  /** Two other users typing, in server order, read "<a> and <b> are
      typing...". */
  lemma TwoOthersText(a: string, b: string, current: string)
    requires a != current && b != current
    ensures TypingText([a, b], current) == Some(a + " and " + b + AreTypingSuffix)
  {
    assert [a, b] == [a] + [b];
    OtherTypingUsersConcat([a], [b], current);
    OtherTypingUsersSingle(a, current);
    OtherTypingUsersSingle(b, current);
  }

  function DigitChar(d: nat): char
    requires d < 10
  {
    "0123456789"[d]
  }

  function DigitValue(ch: char): nat {
    if '0' <= ch <= '9' then (ch as int - '0' as int) as nat else 0
  }

  /** `n` written in decimal, as JavaScript formats an array length. */
  function DecimalString(n: nat): (r: string)
    ensures |r| > 0
    ensures forall i :: 0 <= i < |r| ==> '0' <= r[i] <= '9'
    ensures |r| > 1 ==> r[0] != '0'
    decreases n
  {
    if n < 10 then [DigitChar(n)]
    else DecimalString(n / 10) + [DigitChar(n % 10)]
  }

  /** The number a string of decimal digits denotes. */
  function ParseDecimal(s: string): nat
    decreases |s|
  {
    if s == [] then 0
    else ParseDecimal(s[..|s| - 1]) * 10 + DigitValue(s[|s| - 1])
  }

  /** Reading back the decimal text of a count gives the count. */
  lemma {:induction false} ParseDecimalString(n: nat)
    ensures ParseDecimal(DecimalString(n)) == n
    decreases n
  {
    var s := DecimalString(n);
    if n < 10 {
      assert s[..0] == [];
    } else {
      assert s[..|s| - 1] == DecimalString(n / 10);
      ParseDecimalString(n / 10);
    }
  }

  /** The indicator's text for `typing` as seen by `current`. */
  function TypingText(typing: seq<string>, current: string): (r: Option<string>)
    ensures r.None? <==> forall u :: u in typing ==> u == current
    ensures var others := OtherTypingUsers(typing, current);
      && (|others| == 1 ==> r == Some(others[0] + IsTypingSuffix))
      && (|others| == 2 ==> r == Some(others[0] + " and " + others[1] + AreTypingSuffix))
      && (|others| >= 3 ==>
            && r.Some?
            && |r.value| > |PeopleSuffix|
            && r.value[|r.value| - |PeopleSuffix|..] == PeopleSuffix
            && var count := r.value[..|r.value| - |PeopleSuffix|];
            && (forall i :: 0 <= i < |count| ==> '0' <= count[i] <= '9')
            && (|count| > 1 ==> count[0] != '0')
            && ParseDecimal(count) == |others|)
  {
    var others := OtherTypingUsers(typing, current);
    if |others| == 0 then
      assert forall u :: u in typing ==> u == current;
      None
    else
      assert others[0] in others;
      if |others| == 1 then Some(others[0] + IsTypingSuffix)
      else if |others| == 2 then Some(others[0] + " and " + others[1] + AreTypingSuffix)
      else
        var count := DecimalString(|others|);
        var text := count + PeopleSuffix;
        ParseDecimalString(|others|);
        assert text[..|text| - |PeopleSuffix|] == count;
        assert text[|text| - |PeopleSuffix|..] == PeopleSuffix;
        Some(text)
  }
}
