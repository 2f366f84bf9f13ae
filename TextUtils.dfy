/** `TextUtils.camel_case` of Lecture3/Solution/Task4/text_utils/lib/text_utils.rb: split the
    text into words at whitespace, lowercase the first word, capitalise every later word,
    and join the pieces without separators.

    Ruby's `split(' ')` and `join` are library calls; `Words` and `Concat` model them as
    pure functions. Case mapping is ASCII only. The loop that builds the `result` array is
    the method `CamelCase`, proved against the pure `CamelCaseOf`. */
module TextUtils {
  import opened Wrappers

  /** The characters Ruby's awk-style `split(' ')` treats as separators. */
  predicate IsSpace(c: char)
  {
    c == ' ' || c == '\t' || c == '\n' || c == '\U{000B}' || c == '\U{000C}' || c == '\r'
  }

  predicate NoSpace(s: string)
    decreases |s|
  {
    s == [] || (!IsSpace(s[0]) && NoSpace(s[1..]))
  }

  predicate AllSpace(s: string)
    decreases |s|
  {
    s == [] || (IsSpace(s[0]) && AllSpace(s[1..]))
  }

  /** The text with every whitespace character removed. */
  function RemoveSpace(s: string): string
    decreases |s|
  {
    if s == [] then [] else if IsSpace(s[0]) then RemoveSpace(s[1..]) else [s[0]] + RemoveSpace(s[1..])
  }

  /** `s` without its leading whitespace. */
  function TrimLeft(s: string): (t: string)
    decreases |s|
    ensures |t| <= |s|
    ensures t == [] || !IsSpace(t[0])
  {
    if s != [] && IsSpace(s[0]) then TrimLeft(s[1..]) else s
  }

  /** The longest prefix of `s` without whitespace. */
  function LeadingWord(s: string): (w: string)
    decreases |s|
    ensures |w| <= |s| && NoSpace(w)
    ensures s != [] && !IsSpace(s[0]) ==> |w| > 0
  {
    if s == [] || IsSpace(s[0]) then [] else [s[0]] + LeadingWord(s[1..])
  }

  /** `str.split(' ')`: the maximal runs of non-whitespace characters, in order. */
  function Words(s: string): (ws: seq<string>)
    decreases |s|
    ensures forall i :: 0 <= i < |ws| ==> |ws[i]| > 0 && NoSpace(ws[i])
  {
    var t := TrimLeft(s);
    if t == [] then []
    else
      var w := LeadingWord(t);
      [w] + Words(t[|w|..])
  }

  /** `array.join`: the strings one after another, with no separator. */
  function Concat(ws: seq<string>): string
    decreases |ws|
  {
    if ws == [] then [] else ws[0] + Concat(ws[1..])
  }

  function Lower(c: char): char
  {
    if 'A' <= c <= 'Z' then (c as int + 32) as char else c
  }

  function Upper(c: char): char
  {
    if 'a' <= c <= 'z' then (c as int - 32) as char else c
  }

  /** `downcase`, for ASCII letters. */
  function Downcase(w: string): (r: string)
    decreases |w|
    ensures |r| == |w|
  {
    if w == [] then [] else [Lower(w[0])] + Downcase(w[1..])
  }

  /** `w[0].upcase + w[1..].downcase`. */
  function Capitalize(w: string): string
    requires |w| > 0
  {
    [Upper(w[0])] + Downcase(w[1..])
  }

  /** The `result` array for the words `ws`: the first word lowercased, every later word
      capitalised, in the original order. */
  function CamelWords(ws: seq<string>): (r: seq<string>)
    requires |ws| > 0 && forall i :: 0 <= i < |ws| ==> |ws[i]| > 0
    decreases |ws|
    ensures |r| == |ws| && r[0] == Downcase(ws[0])
    ensures forall i :: 1 <= i < |ws| ==> r[i] == Capitalize(ws[i])
  {
    if |ws| == 1 then [Downcase(ws[0])]
    else CamelWords(ws[..|ws| - 1]) + [Capitalize(ws[|ws| - 1])]
  }

  /** camel_case(s) as a value; None where the source fails (`words[0]` is nil). */
  function CamelCaseOf(s: string): Option<string>
  {
    var ws := Words(s);
    if ws == [] then None else Some(Concat(CamelWords(ws)))
  }

  /** `TextUtils.camel_case`. */
  method CamelCase(str: string) returns (r: Option<string>)
    ensures r == CamelCaseOf(str)
  {
    var words := Words(str);
    if |words| == 0 {
      // `words[0].downcase` on nil raises NoMethodError
      return None;
    }
    var result := [Downcase(words[0])];
    var wordsCounter := |words| - 1;
    var i := 1;
    while i <= wordsCounter
      invariant 1 <= i <= wordsCounter + 1
      invariant result == CamelWords(words[..i])
    {
      var l := |words[i]|;
      result := result + [[Upper(words[i][0])] + Downcase(words[i][1..l])];
      assert words[i][1..l] == words[i][1..];
      assert words[..i + 1][..i] == words[..i] && words[..i + 1][i] == words[i];
      i := i + 1;
    }
    assert words[..i] == words;
    r := Some(Concat(result));
  }

  lemma {:induction false} RemoveSpaceAppend(a: string, b: string)
    ensures RemoveSpace(a + b) == RemoveSpace(a) + RemoveSpace(b)
    decreases |a|
  {
    if a == [] {
      assert a + b == b;
    } else {
      assert (a + b)[0] == a[0];
      assert (a + b)[1..] == a[1..] + b;
      RemoveSpaceAppend(a[1..], b);
    }
  }

  /** Trimming loses only whitespace, and leaves nothing exactly when all was whitespace. */
  lemma {:induction false} TrimLeftDropsSpace(s: string)
    ensures RemoveSpace(TrimLeft(s)) == RemoveSpace(s)
    ensures TrimLeft(s) == [] <==> AllSpace(s)
    decreases |s|
  {
    if s != [] && IsSpace(s[0]) {
      TrimLeftDropsSpace(s[1..]);
    }
  }

  /** The text is its leading word followed by the rest, and the leading word has no
      whitespace to lose. */
  lemma {:induction false} LeadingWordSplit(s: string)
    ensures var w := LeadingWord(s);
            s == w + s[|w|..] && RemoveSpace(s) == w + RemoveSpace(s[|w|..])
    decreases |s|
  {
    if s != [] && !IsSpace(s[0]) {
      LeadingWordSplit(s[1..]);
      var w := LeadingWord(s[1..]);
      assert s[1..][|w|..] == s[|w| + 1..];
    }
  }

  /** The split drops exactly the whitespace: joining the words gives the text with its
      whitespace removed. */
  lemma {:induction false} WordsCoverText(s: string)
    ensures Concat(Words(s)) == RemoveSpace(s)
    decreases |s|
  {
    var t := TrimLeft(s);
    TrimLeftDropsSpace(s);
    if t != [] {
      var w := LeadingWord(t);
      LeadingWordSplit(t);
      WordsCoverText(t[|w|..]);
    }
  }

  /** The split yields no word exactly when the text is empty or all whitespace. */
  lemma NoWordsIffBlank(s: string)
    ensures Words(s) == [] <==> AllSpace(s)
  {
    TrimLeftDropsSpace(s);
  }

  /** A leading whitespace character is skipped by the split. */
  lemma WordsSkipSpace(s: string)
    requires s != [] && IsSpace(s[0])
    ensures Words(s) == Words(s[1..])
  {
  }

  /** The leading word of `a + r` is that of `a` when `a` holds whitespace, and otherwise
      runs on into `r`. */
  lemma {:induction false} LeadingWordAppend(a: string, r: string)
    ensures LeadingWord(a + r) ==
            if |LeadingWord(a)| < |a| then LeadingWord(a) else a + LeadingWord(r)
    decreases |a|
  {
    if a == [] {
      assert a + r == r;
    } else if IsSpace(a[0]) {
      assert (a + r)[0] == a[0];
    } else {
      assert (a + r)[0] == a[0] && (a + r)[1..] == a[1..] + r;
      LeadingWordAppend(a[1..], r);
    }
  }

  /** A whitespace character always separates words: the split of `a + [c] + b` is the
      split of `a` followed by the split of `b`. */
  lemma {:induction false} WordsAtSpace(a: string, c: char, b: string)
    requires IsSpace(c)
    ensures Words(a + [c] + b) == Words(a) + Words(b)
    decreases |a|
  {
    var s := a + [c] + b;
    if a == [] {
      assert s == [c] + b && s[1..] == b;
      WordsSkipSpace(s);
    } else if IsSpace(a[0]) {
      assert s[0] == a[0] && s[1..] == a[1..] + [c] + b;
      WordsSkipSpace(s);
      WordsSkipSpace(a);
      WordsAtSpace(a[1..], c, b);
    } else {
      assert s[0] == a[0];
      var w := LeadingWord(a);
      LeadingWordAppend(a, [c] + b);
      assert s == a + ([c] + b);
      if |w| < |a| {
        assert LeadingWord(s) == w;
        assert s[|w|..] == a[|w|..] + [c] + b;
        WordsAtSpace(a[|w|..], c, b);
      } else {
        LeadingWordSplit(a);
        assert w == a;
        assert LeadingWord(s) == a;
        assert s[|a|..] == [c] + b;
        assert a[|a|..] == [];
        WordsSkipSpace([c] + b);
        assert ([c] + b)[1..] == b;
      }
    }
  }

  /** A non-empty text without whitespace is one word. */
  lemma {:induction false} WordsOfWord(w: string)
    requires w != [] && NoSpace(w)
    ensures Words(w) == [w]
  {
    LeadingWordOfWord(w);
    assert w[|w|..] == [];
  }

  lemma {:induction false} LeadingWordOfWord(w: string)
    requires NoSpace(w)
    ensures LeadingWord(w) == w
    decreases |w|
  {
    if w != [] {
      LeadingWordOfWord(w[1..]);
    }
  }

  lemma {:induction false} NoSpaceAppend(a: string, b: string)
    requires NoSpace(a) && NoSpace(b)
    ensures NoSpace(a + b)
    decreases |a|
  {
    if a == [] {
      assert a + b == b;
    } else {
      assert (a + b)[1..] == a[1..] + b;
      NoSpaceAppend(a[1..], b);
    }
  }

  lemma {:induction false} NoSpaceConcat(ws: seq<string>)
    requires forall i :: 0 <= i < |ws| ==> NoSpace(ws[i])
    ensures NoSpace(Concat(ws))
    decreases |ws|
  {
    if ws != [] {
      NoSpaceConcat(ws[1..]);
      NoSpaceAppend(ws[0], Concat(ws[1..]));
    }
  }

  /** ASCII case mapping never turns a character into whitespace. */
  lemma {:induction false} CaseMappingKeepsNoSpace(w: string)
    requires NoSpace(w)
    ensures NoSpace(Downcase(w))
    ensures w != [] ==> NoSpace(Capitalize(w))
    decreases |w|
  {
    if w != [] {
      CaseMappingKeepsNoSpace(w[1..]);
      assert !IsSpace(Lower(w[0])) && !IsSpace(Upper(w[0]));
    }
  }

  lemma {:induction false} DowncaseAppend(a: string, b: string)
    ensures Downcase(a + b) == Downcase(a) + Downcase(b)
    decreases |a|
  {
    if a == [] {
      assert a + b == b;
    } else {
      assert (a + b)[1..] == a[1..] + b;
      DowncaseAppend(a[1..], b);
    }
  }

  /** Lowercasing a capitalised word gives the word lowercased. */
  lemma {:induction false} DowncaseCapitalize(w: string)
    requires |w| > 0
    ensures Downcase(Capitalize(w)) == Downcase(w)
  {
    DowncaseTwice(w[1..]);
    assert Capitalize(w)[1..] == Downcase(w[1..]);
  }

  lemma {:induction false} DowncaseTwice(w: string)
    ensures Downcase(Downcase(w)) == Downcase(w)
    decreases |w|
  {
    if w != [] {
      DowncaseTwice(w[1..]);
    }
  }

  /** Joining words that agree up to case gives strings that agree up to case. */
  lemma {:induction false} ConcatUpToCase(ws: seq<string>, vs: seq<string>)
    requires |ws| == |vs| && forall i :: 0 <= i < |ws| ==> Downcase(ws[i]) == Downcase(vs[i])
    ensures Downcase(Concat(ws)) == Downcase(Concat(vs))
    decreases |ws|
  {
    if ws != [] {
      ConcatUpToCase(ws[1..], vs[1..]);
      DowncaseAppend(ws[0], Concat(ws[1..]));
      DowncaseAppend(vs[0], Concat(vs[1..]));
    }
  }

  /** What camel_case produces for a text with at least one word: the first word
      lowercased, then each later word capitalised in the original order, joined; the
      result has no whitespace, is as long as all the words together, and differs from
      the text without its whitespace only in letter case. */
  lemma CamelCaseShape(s: string)
    requires !AllSpace(s)
    ensures CamelCaseOf(s).Some?
    ensures var out := CamelCaseOf(s).value;
            var ws := Words(s);
            |ws| > 0 && Downcase(ws[0]) <= out &&
            NoSpace(out) &&
            |out| == |RemoveSpace(s)| &&
            Downcase(out) == Downcase(RemoveSpace(s))
  {
    NoWordsIffBlank(s);
    var ws := Words(s);
    var cw := CamelWords(ws);
    var out := Concat(cw);
    forall k | 0 <= k < |cw|
      ensures NoSpace(cw[k]) && Downcase(cw[k]) == Downcase(ws[k])
    {
      CaseMappingKeepsNoSpace(ws[k]);
      if k == 0 {
        DowncaseTwice(ws[k]);
      } else {
        DowncaseCapitalize(ws[k]);
      }
    }
    NoSpaceConcat(cw);
    ConcatUpToCase(cw, ws);
    WordsCoverText(s);
  }

  /** A text with a single word becomes that word lowercased: the loop runs over 1..0. */
  lemma SingleWord(s: string)
    requires |Words(s)| == 1
    ensures CamelCaseOf(s) == Some(Downcase(Words(s)[0]))
  {
    var w := Downcase(Words(s)[0]);
    assert CamelWords(Words(s)) == [w];
    assert [w][1..] == [];
    assert Concat([w]) == w + Concat([]) == w + [] == w;
    assert Words(s) != [];
  }

  /** A blank text has no first word, where the source fails. */
  lemma BlankFails(s: string)
    ensures CamelCaseOf(s).None? <==> AllSpace(s)
  {
    NoWordsIffBlank(s);
  }
}
