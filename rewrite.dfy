/**
 * Ordered dictionary passes over a text: each entry, in dictionary order,
 * replaces every occurrence of its word in the text the earlier entries
 * left. This is how the pages prepare text for speech synthesis.
 */
module Rewrite {
  import opened Text

  /** One dictionary entry: occurrences of `word` become `reading`. */
  datatype Rule = Rule(word: string, reading: string)

  /**
   * One entry applied the way every loop in the pages applies it: nothing
   * happens unless the word occurs and differs from its reading.
   */
  function GuardedStep(rule: Rule, text: string): string
  {
    if Contains(text, rule.word) && rule.word != rule.reading then
      ReplaceAll(text, rule.word, rule.reading)
    else
      text
  }

  /** The guard never changes the outcome: a guarded step is a plain replace-all. */
  lemma GuardedStepIsReplaceAll(rule: Rule, text: string)
    ensures GuardedStep(rule, text) == ReplaceAll(text, rule.word, rule.reading)
  {
    if !Contains(text, rule.word) {
      ReplaceAbsent(text, rule.word, rule.reading);
    } else if rule.word == rule.reading {
      ReplaceBySelf(text, rule.word);
    }
  }

  /** The reference meaning of a pass: replace-all for each entry, first entry first. */
  function ApplyAll(rules: seq<Rule>, text: string): string
    decreases |rules|
  {
    if rules == [] then text
    else ApplyAll(rules[1..], ReplaceAll(text, rules[0].word, rules[0].reading))
  }

  /** A pass over `a + b` is the pass over `a` followed by the pass over `b`: earlier entries act first. */
  lemma {:induction false} ApplyAllConcat(a: seq<Rule>, b: seq<Rule>, text: string)
    ensures ApplyAll(a + b, text) == ApplyAll(b, ApplyAll(a, text))
    decreases |a|
  {
    if a == [] {
      assert a + b == b;
    } else {
      assert (a + b)[1..] == a[1..] + b;
      ApplyAllConcat(a[1..], b, ReplaceAll(text, a[0].word, a[0].reading));
    }
  }

  /** No dictionary word occurs in `text`. */
  predicate NoneOccur(rules: seq<Rule>, text: string)
  {
    forall i :: 0 <= i < |rules| ==> !Contains(text, rules[i].word)
  }

  /** Text containing none of the dictionary words comes back unchanged. */
  lemma {:induction false} ApplyAllNoneOccur(rules: seq<Rule>, text: string)
    requires NoneOccur(rules, text)
    ensures ApplyAll(rules, text) == text
    decreases |rules|
  {
    if rules != [] {
      assert !Contains(text, rules[0].word);
      ReplaceAbsent(text, rules[0].word, rules[0].reading);
      assert NoneOccur(rules[1..], text) by {
        forall i | 0 <= i < |rules[1..]|
          ensures !Contains(text, rules[1..][i].word)
        {
          assert rules[1..][i] == rules[i + 1];
        }
      }
      ApplyAllNoneOccur(rules[1..], text);
    }
  }

  /**
   * The loop of `applyPronunciationGuides` / `apply_pronunciation_guides`:
   * walk the entries in order, replacing a word only when it occurs and
   * differs from its reading.
   */
  method ApplyGuides(rules: seq<Rule>, text: string) returns (r: string)
    ensures r == ApplyAll(rules, text)
  {
    r := text;
    var i := 0;
    while i < |rules|
      invariant 0 <= i <= |rules|
      invariant ApplyAll(rules[i..], r) == ApplyAll(rules, text)
    {
      var rule := rules[i];
      assert rules[i..][1..] == rules[i + 1..];
      GuardedStepIsReplaceAll(rule, r);
      if Contains(r, rule.word) && rule.word != rule.reading {
        r := ReplaceAll(r, rule.word, rule.reading);
      }
      i := i + 1;
    }
  }

  /**
   * The loop of `convert_to_hiragana`: like `ApplyGuides` but guarded only
   * by the word occurring.
   */
  method ConvertWords(rules: seq<Rule>, text: string) returns (r: string)
    ensures r == ApplyAll(rules, text)
  {
    r := text;
    var i := 0;
    while i < |rules|
      invariant 0 <= i <= |rules|
      invariant ApplyAll(rules[i..], r) == ApplyAll(rules, text)
    {
      var rule := rules[i];
      assert rules[i..][1..] == rules[i + 1..];
      if !Contains(r, rule.word) {
        ReplaceAbsent(r, rule.word, rule.reading);
      }
      if Contains(r, rule.word) {
        r := ReplaceAll(r, rule.word, rule.reading);
      }
      i := i + 1;
    }
  }

  /**
   * The reading dictionary of the third quiz page. The browser game's
   * dictionary declares the same 24 entries first.
   */
  const StageGuides: seq<Rule> := [
    Rule("源頼朝", "源頼朝みなもとのよりとも"),
    Rule("征夷大将軍", "せいいたいしょうぐん"),
    Rule("趣", "おもむき"),
    Rule("浪人生", "ろうにんせい"),
    Rule("板垣政参", "いたがきまさみつ"),
    Rule("瑞宝中綬章", "ずいほうちゅうじゅしょう"),
    Rule("裏店", "うらみせ"),
    Rule("肉飯", "にくめし"),
    Rule("男く祭", "おとこくさい"),
    Rule("芙蓉", "ふよう"),
    Rule("西鉄", "にしてつ"),
    Rule("久留米", "くるめ"),
    Rule("チーム1", "チームいち"),
    Rule("チーム2", "チームに"),
    Rule("チーム3", "チームさん"),
    Rule("チーム4", "チームよん"),
    Rule("チーム5", "チームご"),
    Rule("1192", "せんひゃくきゅうじゅうに"),
    Rule("2005", "にせんご"),
    Rule("1968", "せんきゅうひゃくろうじゅうはち"),
    Rule("吉川敦", "よしかわあつし"),
    Rule("黒水", "くろうず"),
    Rule("七福神", "しちふくじん"),
    Rule("満々", "まんまん")
  ]

  /** The entries the browser dictionary declares after the shared 24. */
  const BrowserOnlyGuides: seq<Rule> := [
    Rule("松下由依", "まつしたゆい"),
    Rule("勝連", "かつれん"),
    Rule("小林", "こばやし"),
    Rule("松雪", "まつゆき"),
    Rule("中島", "なかじま"),
    Rule("山本", "やまもと"),
    Rule("上坂元", "かみさかもと"),
    Rule("秋本", "あきもと"),
    Rule("松浦", "まつうら"),
    Rule("田中", "たなか"),
    Rule("吉開", "よしかい"),
    Rule("年", "ねん"),
    Rule("織田信長", "おだのぶなが"),
    Rule("町田", "まちだ"),
    Rule("情け", "なさけ"),
    Rule("三権分立", "さんけんぶんりつ"),
    Rule("県花", "けんか")
  ]

  /** The reading dictionary of the browser game, in the order its entries are declared. */
  const BrowserDeclaredGuides: seq<Rule> := StageGuides + BrowserOnlyGuides

  /** A decimal digit. */
  predicate IsDigit(c: char)
  {
    '0' <= c <= '9'
  }

  /** The number a string of decimal digits spells (a non-digit counts as 0). */
  function DigitsValue(w: string): nat
    decreases |w|
  {
    if w == [] then 0
    else 10 * DigitsValue(w[..|w| - 1]) + (if IsDigit(w[|w| - 1]) then w[|w| - 1] as int - '0' as int else 0)
  }

  /**
   * A key JavaScript treats as an array index: the canonical decimal
   * spelling of an integer below 2^32 - 1. Enumerating an object's own
   * keys lists these first, in ascending numeric order, and every other
   * string key after them in creation order (ECMA-262, section 10.1.11.1,
   * OrdinaryOwnPropertyKeys).
   */
  predicate IsIndexKey(w: string)
  {
    && w != []
    && (forall i :: 0 <= i < |w| ==> IsDigit(w[i]))
    && (w[0] == '0' ==> |w| == 1)
    && DigitsValue(w) < 0xFFFF_FFFF
  }

  /** The entries of `rules` whose word is (`index`) or is not (`!index`) an array-index key, in their order. */
  function IndexKeyed(rules: seq<Rule>, index: bool): (r: seq<Rule>)
    ensures |r| <= |rules|
    ensures forall i :: 0 <= i < |r| ==> IsIndexKey(r[i].word) == index
    decreases |rules|
  {
    if rules == [] then []
    else if IsIndexKey(rules[0].word) == index then [rules[0]] + IndexKeyed(rules[1..], index)
    else IndexKeyed(rules[1..], index)
  }

  /** Filtering a concatenation filters each part. */
  lemma {:induction false} IndexKeyedConcat(a: seq<Rule>, b: seq<Rule>, index: bool)
    ensures IndexKeyed(a + b, index) == IndexKeyed(a, index) + IndexKeyed(b, index)
    decreases |a|
  {
    if a == [] {
      assert a + b == b;
    } else {
      assert (a + b)[1..] == a[1..] + b;
      IndexKeyedConcat(a[1..], b, index);
    }
  }

  /** Every entry lands on exactly one side of the split. */
  lemma {:induction false} IndexKeyedPartition(rules: seq<Rule>)
    ensures multiset(IndexKeyed(rules, true)) + multiset(IndexKeyed(rules, false)) == multiset(rules)
    decreases |rules|
  {
    if rules != [] {
      IndexKeyedPartition(rules[1..]);
      assert rules == [rules[0]] + rules[1..];
    }
  }

  /** When every word is on one side, that side is the whole sequence and the other is empty. */
  lemma {:induction false} IndexKeyedUniform(rules: seq<Rule>, index: bool)
    requires forall i :: 0 <= i < |rules| ==> IsIndexKey(rules[i].word) == index
    ensures IndexKeyed(rules, index) == rules
    ensures IndexKeyed(rules, !index) == []
    decreases |rules|
  {
    if rules != [] {
      assert forall i :: 0 <= i < |rules[1..]| ==> IsIndexKey(rules[1..][i].word) == index by {
        forall i | 0 <= i < |rules[1..]|
          ensures IsIndexKey(rules[1..][i].word) == index
        {
          assert rules[1..][i] == rules[i + 1];
        }
      }
      IndexKeyedUniform(rules[1..], index);
      assert rules == [rules[0]] + rules[1..];
    }
  }

  /** A word that starts with anything but a digit is not an array-index key. */
  lemma LetterLedNotIndex(rules: seq<Rule>)
    requires forall i :: 0 <= i < |rules| ==> rules[i].word != [] && !IsDigit(rules[i].word[0])
    ensures forall i :: 0 <= i < |rules| ==> !IsIndexKey(rules[i].word)
  {
    forall i | 0 <= i < |rules|
      ensures !IsIndexKey(rules[i].word)
    {
      var w := rules[i].word;
      assert !IsDigit(w[0]);
    }
  }

  /** The numeric keys of `rules` strictly increase. */
  predicate AscendingKeys(rules: seq<Rule>)
  {
    forall i, j :: 0 <= i < j < |rules| ==> DigitsValue(rules[i].word) < DigitsValue(rules[j].word)
  }

  /**
   * `order` is how `Object.entries` lists an object literal whose entries
   * were declared as `declared`: the array-index keys first, ascending,
   * then the other keys in declaration order.
   */
  predicate EnumerationOrder(declared: seq<Rule>, order: seq<Rule>)
  {
    var n := |IndexKeyed(declared, true)|;
    && n <= |order|
    && multiset(order[..n]) == multiset(IndexKeyed(declared, true))
    && AscendingKeys(order[..n])
    && order[n..] == IndexKeyed(declared, false)
  }

  /** The year keys of the browser dictionary, in ascending numeric order. */
  const BrowserYearGuides: seq<Rule> := [
    Rule("1192", "せんひゃくきゅうじゅうに"),
    Rule("1968", "せんきゅうひゃくろうじゅうはち"),
    Rule("2005", "にせんご")
  ]

  /** The reading dictionary of the browser game, in the order `Object.entries` walks it. */
  const BrowserGuides: seq<Rule> := BrowserYearGuides + IndexKeyed(BrowserDeclaredGuides, false)

  /** The kana conversion table of the third quiz page. */
  const KanaConversions: seq<Rule> := [
    Rule("源頼朝", "みなもとのよりとも"),
    Rule("征夷大将軍", "せいいたいしょうぐん"),
    Rule("鎌倉幕府", "かまくらばくふ"),
    Rule("裏店", "うらみせ"),
    Rule("男く祭", "おとこくさい"),
    Rule("芙蓉", "ふよう")
  ]

  /** The three year words are array-index keys with their face values. */
  lemma YearWordsIndexed()
    ensures DigitsValue("1192") == 1192 && IsIndexKey("1192")
    ensures DigitsValue("1968") == 1968 && IsIndexKey("1968")
    ensures DigitsValue("2005") == 2005 && IsIndexKey("2005")
  {
    assert "1192"[..3] == "119" && "119"[..2] == "11" && "11"[..1] == "1" && "1"[..0] == "";
    assert "1968"[..3] == "196" && "196"[..2] == "19" && "19"[..1] == "1";
    assert "2005"[..3] == "200" && "200"[..2] == "20" && "20"[..1] == "2" && "2"[..0] == "";
  }

  /** The first 17 shared words start with a kanji or a katakana letter. */
  lemma StageHeadNotIndexed()
    ensures IndexKeyed(StageGuides[..17], false) == StageGuides[..17]
    ensures IndexKeyed(StageGuides[..17], true) == []
  {
    LetterLedNotIndex(StageGuides[..17]);
    IndexKeyedUniform(StageGuides[..17], false);
  }

  /** The last 4 shared words start with a kanji. */
  lemma StageTailNotIndexed()
    ensures IndexKeyed(StageGuides[20..], false) == StageGuides[20..]
    ensures IndexKeyed(StageGuides[20..], true) == []
  {
    LetterLedNotIndex(StageGuides[20..]);
    IndexKeyedUniform(StageGuides[20..], false);
  }

  /** The three shared entries between them are the years, in declared order "1192", "2005", "1968". */
  lemma StageYearsIndexed()
    ensures StageGuides[17..20] == [BrowserYearGuides[0], BrowserYearGuides[2], BrowserYearGuides[1]]
    ensures IndexKeyed(StageGuides[17..20], true) == StageGuides[17..20]
    ensures IndexKeyed(StageGuides[17..20], false) == []
  {
    YearWordsIndexed();
    IndexKeyedUniform(StageGuides[17..20], true);
  }

  /** Filtering a three-part concatenation filters each part. */
  lemma IndexKeyedThree(h: seq<Rule>, y: seq<Rule>, t: seq<Rule>, index: bool)
    ensures IndexKeyed(h + y + t, index) == IndexKeyed(h, index) + IndexKeyed(y, index) + IndexKeyed(t, index)
  {
    IndexKeyedConcat(h + y, t, index);
    IndexKeyedConcat(h, y, index);
  }

  /** Of a run of index keys between two runs of other words, the index side keeps exactly the run. */
  lemma IndexKeyedAroundIndex(h: seq<Rule>, y: seq<Rule>, t: seq<Rule>)
    requires IndexKeyed(h, true) == [] && IndexKeyed(y, true) == y && IndexKeyed(t, true) == []
    ensures IndexKeyed(h + y + t, true) == y
  {
    IndexKeyedThree(h, y, t, true);
    assert [] + y + [] == y;
  }

  /** Of a run of index keys between two runs of other words, the other side keeps exactly the two runs. */
  lemma IndexKeyedAroundOther(h: seq<Rule>, y: seq<Rule>, t: seq<Rule>)
    requires IndexKeyed(h, false) == h && IndexKeyed(y, false) == [] && IndexKeyed(t, false) == t
    ensures IndexKeyed(h + y + t, false) == h + t
  {
    IndexKeyedThree(h, y, t, false);
    assert h + [] == h;
  }

  /** The shared entries split into the leading 17 words, the three years and the trailing 4 words. */
  lemma StageGuidesSplit()
    ensures IndexKeyed(StageGuides, true) == StageGuides[17..20]
    ensures IndexKeyed(StageGuides, false) == StageGuides[..17] + StageGuides[20..]
  {
    StageHeadNotIndexed();
    StageYearsIndexed();
    StageTailNotIndexed();
    assert StageGuides == StageGuides[..17] + StageGuides[17..20] + StageGuides[20..];
    IndexKeyedAroundIndex(StageGuides[..17], StageGuides[17..20], StageGuides[20..]);
    IndexKeyedAroundOther(StageGuides[..17], StageGuides[17..20], StageGuides[20..]);
  }

  /** No browser-only word is an array-index key. */
  lemma BrowserOnlyNotIndexed()
    ensures IndexKeyed(BrowserOnlyGuides, false) == BrowserOnlyGuides
    ensures IndexKeyed(BrowserOnlyGuides, true) == []
  {
    LetterLedNotIndex(BrowserOnlyGuides);
    IndexKeyedUniform(BrowserOnlyGuides, false);
  }

  /** Appending words that are not index keys adds them to the other side only. */
  lemma IndexKeyedAppendOther(a: seq<Rule>, b: seq<Rule>)
    requires IndexKeyed(b, true) == [] && IndexKeyed(b, false) == b
    ensures IndexKeyed(a + b, true) == IndexKeyed(a, true)
    ensures IndexKeyed(a + b, false) == IndexKeyed(a, false) + b
  {
    IndexKeyedConcat(a, b, true);
    IndexKeyedConcat(a, b, false);
    assert IndexKeyed(a, true) + [] == IndexKeyed(a, true);
  }

  /** The declared browser dictionary has the three shared years as its only index keys. */
  lemma BrowserDeclaredSplit()
    ensures IndexKeyed(BrowserDeclaredGuides, true) == StageGuides[17..20]
    ensures IndexKeyed(BrowserDeclaredGuides, false) == StageGuides[..17] + StageGuides[20..] + BrowserOnlyGuides
  {
    StageGuidesSplit();
    BrowserOnlyNotIndexed();
    IndexKeyedAppendOther(StageGuides, BrowserOnlyGuides);
  }

  /** The year entries are listed by increasing value. */
  lemma YearGuidesAscending()
    ensures AscendingKeys(BrowserYearGuides)
  {
    YearWordsIndexed();
  }

  /**
   * Listing a rearrangement of the index keys, ascending, before the other
   * words in declared order is the enumeration order, and it lists every
   * declared entry exactly once.
   */
  lemma IndexKeysFirst(declared: seq<Rule>, keys: seq<Rule>)
    requires multiset(keys) == multiset(IndexKeyed(declared, true))
    requires |keys| == |IndexKeyed(declared, true)|
    requires AscendingKeys(keys)
    ensures EnumerationOrder(declared, keys + IndexKeyed(declared, false))
    ensures multiset(keys + IndexKeyed(declared, false)) == multiset(declared)
  {
    var order := keys + IndexKeyed(declared, false);
    assert order[..|keys|] == keys;
    assert order[|keys|..] == IndexKeyed(declared, false);
    IndexKeyedPartition(declared);
  }

  /** The year entries are the declared index keys, rearranged. */
  lemma YearGuidesRearrange()
    ensures multiset(BrowserYearGuides) == multiset(IndexKeyed(BrowserDeclaredGuides, true))
    ensures |BrowserYearGuides| == |IndexKeyed(BrowserDeclaredGuides, true)|
  {
    BrowserDeclaredSplit();
    StageYearsIndexed();
    var y := BrowserYearGuides;
    assert multiset([y[0], y[2], y[1]]) == multiset(y) by {
      assert y == [y[0], y[1], y[2]];
    }
  }

  /**
   * The browser walks its dictionary in enumeration order: the three year
   * keys of the shared entries, ascending, then the other 38 words as
   * declared. The walk holds each declared entry exactly once.
   */
  lemma BrowserEnumerationOrder()
    ensures EnumerationOrder(BrowserDeclaredGuides, BrowserGuides)
    ensures multiset(BrowserGuides) == multiset(BrowserDeclaredGuides)
  {
    YearGuidesRearrange();
    YearGuidesAscending();
    IndexKeysFirst(BrowserDeclaredGuides, BrowserYearGuides);
  }

  /**
   * The browser pass replaces the years before any word: it is the year
   * pass followed by the shared words without the years and then the
   * browser-only words.
   */
  lemma BrowserYearsFirst(text: string)
    ensures ApplyAll(BrowserGuides, text)
         == ApplyAll(StageGuides[..17] + StageGuides[20..] + BrowserOnlyGuides, ApplyAll(BrowserYearGuides, text))
  {
    BrowserDeclaredSplit();
    ApplyAllConcat(BrowserYearGuides, IndexKeyed(BrowserDeclaredGuides, false), text);
  }

  /** Entry `k` acts on exactly the text the entries before it left. */
  lemma {:induction false} EntryActsOnEarlierResult(rules: seq<Rule>, k: nat, text: string)
    requires k < |rules|
    ensures ApplyAll(rules, text)
         == ApplyAll(rules[k + 1..], ReplaceAll(ApplyAll(rules[..k], text), rules[k].word, rules[k].reading))
  {
    assert rules == rules[..k] + rules[k..];
    ApplyAllConcat(rules[..k], rules[k..], text);
    assert rules[k..][1..] == rules[k + 1..];
  }

  /** In the browser walk "1192" (entry 0) comes before "年" (entry 35). */
  lemma YearBeforeCounter()
    ensures BrowserGuides[0] == Rule("1192", "せんひゃくきゅうじゅうに")
    ensures |BrowserGuides| == 41 && BrowserGuides[35] == Rule("年", "ねん")
  {
    BrowserDeclaredSplit();
    var rest := IndexKeyed(BrowserDeclaredGuides, false);
    assert rest == StageGuides[..17] + StageGuides[20..] + BrowserOnlyGuides;
    assert |rest| == 38 && rest[32] == BrowserOnlyGuides[11];
    assert BrowserGuides[35] == rest[32];
  }

  /** Every character of `s` is a hiragana letter. */
  predicate AllHiragana(s: string)
  {
    forall i :: 0 <= i < |s| ==> '\U{3041}' <= s[i] <= '\U{309F}'
  }

  /** A word that does not start with a hiragana letter does not occur in hiragana text. */
  lemma AbsentFromHiragana(s: string, word: string)
    requires AllHiragana(s)
    requires word != [] && !('\U{3041}' <= word[0] <= '\U{309F}')
    ensures !Contains(s, word)
  {
  }

  /** No word of `rules` starts with a hiragana letter. */
  predicate KanjiLed(rules: seq<Rule>)
  {
    forall i :: 0 <= i < |rules| ==> rules[i].word != [] && !('\U{3041}' <= rules[i].word[0] <= '\U{309F}')
  }

  /** Hiragana text passes unchanged through a dictionary whose words all start otherwise. */
  lemma HiraganaPassesThrough(rules: seq<Rule>, s: string)
    requires AllHiragana(s) && KanjiLed(rules)
    ensures ApplyAll(rules, s) == s
  {
    forall i | 0 <= i < |rules|
      ensures !Contains(s, rules[i].word)
    {
      AbsentFromHiragana(s, rules[i].word);
    }
    ApplyAllNoneOccur(rules, s);
  }

  /**
   * When the first entry turns `text` into hiragana and no later word
   * starts with a hiragana letter, the pass ends with the first entry's result.
   */
  lemma FirstEntryThenHiragana(rules: seq<Rule>, text: string, out: string)
    requires rules != []
    requires ReplaceAll(text, rules[0].word, rules[0].reading) == out
    requires AllHiragana(out) && KanjiLed(rules[1..])
    ensures ApplyAll(rules, text) == out
  {
    HiraganaPassesThrough(rules[1..], out);
  }
}
