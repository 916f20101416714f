/** Cutting a stream of characters at newlines, whatever the chunks it arrives in. */
module Framing {

  /** The complete lines of `text` and what follows the last newline, given what came before it. */
  function Split(carry: string, text: string): (seq<string>, string)
    decreases |text|
  {
    if text == [] then ([], carry)
    else if text[0] == '\n' then
      var rest := Split([], text[1..]);
      ([carry] + rest.0, rest.1)
    else Split(carry + [text[0]], text[1..])
  }

  /** Where chunks are cut makes no difference. */
  lemma {:induction false} SplitOver(carry: string, a: string, b: string)
    ensures var first := Split(carry, a);
            var second := Split(first.1, b);
            Split(carry, a + b) == (first.0 + second.0, second.1)
    decreases |a|
  {
    if a == [] {
      assert a + b == b && [] + Split(carry, b).0 == Split(carry, b).0;
    } else {
      assert (a + b)[1..] == a[1..] + b && (a + b)[0] == a[0];
      if a[0] == '\n' {
        SplitOver([], a[1..], b);
        var rest, second := Split([], a[1..]), Split(Split([], a[1..]).1, b);
        assert [carry] + (rest.0 + second.0) == [carry] + rest.0 + second.0;
      } else {
        SplitOver(carry + [a[0]], a[1..], b);
      }
    }
  }

  lemma {:induction false} NoNewline(carry: string, text: string)
    requires '\n' !in text
    ensures Split(carry, text) == ([], carry + text)
    decreases |text|
  {
    if text == [] {
      assert carry + text == carry;
    } else {
      NoNewline(carry + [text[0]], text[1..]);
      assert carry + [text[0]] + text[1..] == carry + text;
    }
  }

  lemma FirstLine(carry: string, text: string, n: nat)
    requires n < |text| && text[n] == '\n' && '\n' !in text[..n]
    ensures Split(carry, text) == ([carry + text[..n]] + Split([], text[n + 1..]).0, Split([], text[n + 1..]).1)
  {
    NoNewline(carry, text[..n]);
    SplitOver(carry, text[..n], text[n..]);
    assert text == text[..n] + text[n..];
    assert text[n..][0] == '\n' && text[n..][1..] == text[n + 1..];
    var line, rest := carry + text[..n], Split([], text[n + 1..]);
    assert Split(line, text[n..]) == ([line] + rest.0, rest.1);
    assert [] + ([line] + rest.0) == [line] + rest.0;
  }

  lemma {:induction false} CarryHasNoNewline(carry: string, text: string)
    requires '\n' !in carry
    ensures '\n' !in Split(carry, text).1
    decreases |text|
  {
    if text != [] {
      CarryHasNoNewline(if text[0] == '\n' then [] else carry + [text[0]], text[1..]);
    }
  }
}
