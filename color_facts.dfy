/**
 * What the colour resolver promises: an index in 1..255, the integer itself
 * for integer text in range, otherwise the first table name (in definition
 * order) that occurs in the lowered text, otherwise 7.  The regular-expression
 * fallback never changes the outcome, and names that contain an earlier name
 * are shadowed by it.
 */
module ColorFacts {
  import opened Wrappers
  import opened Lexical
  import opened LexicalFacts
  import opened Notation
  import opened Colors

  // ---------------------------------------------------------------------------
  // int()

  /** Text with no white space at either end is its own `strip()`. */
  lemma {:induction false} StripOfTrimmed(t: string)
    requires t != [] && !IsSpace(t[0]) && !IsSpace(t[|t| - 1])
    ensures Strip(t) == t
  {
    assert TrimStart(t) == t;
  }

  /** A run of digits has no separator to drop. */
  lemma {:induction false} WithoutUnderscoresOfDigits(d: string)
    requires forall i :: 0 <= i < |d| ==> IsDigit(d[i])
    ensures WithoutUnderscores(d) == d
  {
    if d != [] {
      WithoutUnderscoresOfDigits(d[1..]);
    }
  }

  /** `int()` reads back a decimal numeral. */
  lemma {:induction false} UnsignedIntNumeral(n: nat)
    ensures UnsignedInt(DecimalText(n)) == Some(n)
  {
    WithoutUnderscoresOfDigits(DecimalText(n));
    DecimalTextValue(n);
  }

  /** A `-` and a body that reads as `m` read as `-m`. */
  lemma {:induction false} ParseIntMinus(s: string, m: nat)
    requires var t := Strip(s); t != [] && t[0] == '-' && UnsignedInt(t[1..]) == Some(m)
    ensures ParseInt(s) == Some(-(m as int))
  {
  }

  /** `int(str(n)) == n` for a negative `n`: the sign, then the digits. */
  lemma {:induction false} ParseIntNegative(n: int)
    requires n < 0
    ensures ParseInt(IntText(n)) == Some(n)
  {
    var t := IntText(n);
    StripOfTrimmed(t);
    assert t[1..] == DecimalText(-n);
    UnsignedIntNumeral(-n);
    ParseIntMinus(t, -n);
  }

  /** `int(str(n)) == n`. */
  lemma {:induction false} ParseIntNumeral(n: int)
    ensures ParseInt(IntText(n)) == Some(n)
  {
    if n < 0 {
      ParseIntNegative(n);
    } else {
      StripOfTrimmed(IntText(n));
      UnsignedIntNumeral(n);
    }
  }

  // ---------------------------------------------------------------------------
  // The first name that occurs

  /** No name of the table occurs: the lookup finds nothing, and only then. */
  lemma {:induction false} FirstColorNameNone(c: string, table: seq<(string, int)>)
    requires IndicesInRange(table)
    ensures FirstColorName(c, table).None? <==> forall i :: 0 <= i < |table| ==> !Contains(c, Lower(table[i].0))
  {
    if table != [] {
      FirstColorNameNone(c, table[1..]);
      assert forall i :: 1 <= i < |table| ==> table[i] == table[1..][i - 1];
    }
  }

  /** The lookup returns the index of the first entry whose lower-cased name occurs. */
  lemma {:induction false} FirstColorNameAt(c: string, table: seq<(string, int)>, i: nat)
    requires IndicesInRange(table) && i < |table|
    requires Contains(c, Lower(table[i].0))
    requires forall j :: 0 <= j < i ==> !Contains(c, Lower(table[j].0))
    ensures FirstColorName(c, table) == Some(table[i].1)
  {
    if i > 0 {
      assert forall j :: 0 <= j < i - 1 ==> table[1..][j] == table[j + 1];
      FirstColorNameAt(c, table[1..], i - 1);
    }
  }

  /** A successful lookup comes from the first entry whose lower-cased name occurs. */
  lemma {:induction false} FirstColorNameFound(c: string, table: seq<(string, int)>)
    requires IndicesInRange(table) && FirstColorName(c, table).Some?
    ensures exists i ::
      && 0 <= i < |table| && Contains(c, Lower(table[i].0))
      && FirstColorName(c, table) == Some(table[i].1)
      && forall j :: 0 <= j < i ==> !Contains(c, Lower(table[j].0))
  {
    if !Contains(c, Lower(table[0].0)) {
      FirstColorNameFound(c, table[1..]);
      var i :| 0 <= i < |table[1..]| && Contains(c, Lower(table[1..][i].0))
        && FirstColorName(c, table[1..]) == Some(table[1..][i].1)
        && forall j :: 0 <= j < i ==> !Contains(c, Lower(table[1..][j].0));
      assert forall j :: 1 <= j < i + 1 ==> table[j] == table[1..][j - 1];
      assert Contains(c, Lower(table[i + 1].0)) && FirstColorName(c, table) == Some(table[i + 1].1);
    } else {
      assert Contains(c, Lower(table[0].0)) && FirstColorName(c, table) == Some(table[0].1);
    }
  }

  // ---------------------------------------------------------------------------
  // The fallback pattern

  /** Every word `findall` returns is a substring of the text. */
  lemma {:induction false} ColorWordsOccur(s: string, p: nat)
    requires p <= |s|
    ensures forall w :: w in ColorWordsFrom(s, p) ==> Contains(s, w)
    decreases |s| - p
  {
    if p < |s| {
      var e := ColorWordAt(s, p);
      if e.Some? {
        ColorWordsOccur(s, e.value);
        var w := s[p..e.value];
        assert ContainsAt(s, w, p);
      } else {
        ColorWordsOccur(s, p + 1);
      }
    }
  }

  /** A substring of lowered text is lowered. */
  lemma {:induction false} ContainedIsLowered(c: string, w: string)
    requires IsLowered(c) && Contains(c, w)
    ensures IsLowered(w)
  {
    var i :| 0 <= i <= |c| - |w| && ContainsAt(c, w, i);
    forall k | 0 <= k < |w| ensures !('A' <= w[k] <= 'Z') {
      assert c[i + k] == w[k];
    }
  }

  /** A key that occurs in lowered text is found by the name lookup. */
  lemma {:induction false} KeyOccurs(c: string, w: string, table: seq<(string, int)>)
    requires IndicesInRange(table) && IsLowered(c) && Contains(c, w)
    requires LookupName(w, table).Some?
    ensures FirstColorName(c, table).Some?
  {
    if table[0].0 == w {
      ContainedIsLowered(c, w);
      LowerOfLowered(w);
    } else if !Contains(c, Lower(table[0].0)) {
      KeyOccurs(c, w, table[1..]);
    }
  }

  /** When no name occurs in lowered text, no word of it is a key. */
  lemma {:induction false} NoKnownWord(c: string, words: seq<string>, table: seq<(string, int)>)
    requires IndicesInRange(table) && IsLowered(c) && FirstColorName(c, table).None?
    requires forall w :: w in words ==> Contains(c, w)
    ensures FirstKnownWord(words, table).None?
  {
    if words != [] {
      if LookupName(words[0], table).Some? {
        KeyOccurs(c, words[0], table);
      }
      NoKnownWord(c, words[1..], table);
    }
  }

  /** The fallback of lines 138-144 never changes the result: any key it finds was found before. */
  lemma {:induction false} FallbackNeverFires(c: string)
    requires IsLowered(c)
    ensures IndicesInRange(ColorTable)
    ensures FirstColorName(c, ColorTable).None? ==> FirstKnownWord(ColorWordsFrom(c, 0), ColorTable).None?
  {
    ColorTableInRange();
    if FirstColorName(c, ColorTable).None? {
      ColorWordsOccur(c, 0);
      NoKnownWord(c, ColorWordsFrom(c, 0), ColorTable);
    }
  }

  // ---------------------------------------------------------------------------
  // The resolver

  /** Integer text in 1..255 is the colour index itself. */
  lemma {:induction false} ExtractColorInteger(n: int)
    requires 1 <= n <= 255
    ensures ExtractColor(Some(IntText(n))) == n
  {
    ParseIntNumeral(n);
  }

  /**
   * Text that is not an integer in 1..255 resolves to the index of the first
   * table name that occurs in its lowered form, or to 7 when none does.
   */
  lemma {:induction false} ExtractColorByName(command: string)
    requires var n := ParseInt(command); n.None? || n.value < 1 || n.value > 255
    ensures IndicesInRange(ColorTable)
    ensures ExtractColor(Some(command)) == FirstColorName(Lower(command), ColorTable).GetOr(DefaultColor)
  {
    LowerIsLowered(command);
    FallbackNeverFires(Lower(command));
  }

  /** Text that is no integer in 1..255 and in which a name occurs resolves by that lookup. */
  lemma {:induction false} ExtractColorNamed(command: string, v: int)
    requires ParseInt(command).None?
    requires IndicesInRange(ColorTable) && FirstColorName(Lower(command), ColorTable) == Some(v)
    ensures ExtractColor(Some(command)) == v
  {
    ExtractColorByName(command);
  }

  // ---------------------------------------------------------------------------
  // Shadowed names

  /** Text with neither digit, sign nor white space is not an integer. */
  lemma {:induction false} ParseIntOfWord(s: string)
    requires s != [] && !IsSpace(s[0]) && !IsSpace(s[|s| - 1])
    requires !IsDigit(s[0]) && s[0] != '+' && s[0] != '-'
    ensures ParseInt(s) == None
  {
    StripOfTrimmed(s);
  }

  /** A name inside a name: wherever the longer occurs, so does the shorter. */
  lemma {:induction false} NameInside(c: string, long: string, short: string, i: nat)
    requires ContainsAt(long, short, i) && Contains(c, long)
    ensures Contains(c, short)
  {
    ContainsTransitive(c, long, short);
  }

  /**
   * "洋红色" (magenta) contains "红色" (red), the first name of the table: text
   * in which it occurs and that is not an integer in 1..255 resolves to 1, not 6.
   */
  lemma {:induction false} MagentaNameIsRed(command: string)
    requires var n := ParseInt(command); n.None? || n.value < 1 || n.value > 255
    requires Contains(Lower(command), "洋红色")
    ensures ExtractColor(Some(command)) == 1
  {
    var c := Lower(command);
    ColorTableInRange();
    assert Lower(ColorTable[0].0) == "红色" by {
      LowerOfLowered(ColorTable[0].0);
    }
    NameInside(c, "洋红色", "红色", 1);
    FirstColorNameAt(c, ColorTable, 0);
    ExtractColorByName(command);
  }

  /** "灰色" (gray) comes before "浅灰色" (light gray) and occurs wherever it does. */
  lemma {:induction false} GrayShadowsPaleGray(c: string)
    requires Contains(c, Lower(ColorTable[8].0))
    ensures Contains(c, Lower(ColorTable[7].0))
  {
    LowerOfLowered(ColorTable[8].0);
    LowerOfLowered(ColorTable[7].0);
    NameInside(c, "浅灰色", "灰色", 1);
  }

  /** "Gray" comes before "Light Gray" and, lower-cased, occurs wherever it does. */
  lemma {:induction false} GrayShadowsLightGray(c: string)
    requires Contains(c, Lower(ColorTable[21].0))
    ensures Contains(c, Lower(ColorTable[20].0))
  {
    var light, gray := Lower(ColorTable[21].0), Lower(ColorTable[20].0);
    assert light == "light gray";
    assert gray == "gray";
    NameInside(c, light, gray, 6);
  }

  /** A two-character name ending in 色 but not "灰色", or a three-character name not starting with 浅, is not in "浅灰色". */
  lemma {:induction false} NotInPaleGray(c: string, w: string)
    requires c == "浅灰色"
    requires (|w| == 2 && w[0] != '灰' && w[1] == '色') || (|w| == 3 && w[0] != '浅')
    ensures !Contains(c, w)
  {
    forall i | 0 <= i <= |c| - |w| ensures !ContainsAt(c, w, i) {
      assert c[i] != w[0] || c[i + 1] != w[1];
    }
  }

  /** "浅灰色" is no integer and is its own lower-case form. */
  lemma {:induction false} PaleGrayWord(c: string)
    requires c == "浅灰色"
    ensures ParseInt(c).None? && Lower(c) == c
  {
    ParseIntOfWord(c);
    LowerOfLowered(c);
  }

  /** In "浅灰色" the first name that occurs is "灰色", the eighth. */
  lemma {:induction false} PaleGrayFirstName(c: string)
    requires c == "浅灰色"
    ensures IndicesInRange(ColorTable)
    ensures FirstColorName(c, ColorTable) == Some(8)
  {
    var t := ColorTable;
    ColorTableInRange();
    forall j | 0 <= j < 7 ensures !Contains(c, Lower(t[j].0)) {
      LowerOfLowered(t[j].0);
      NotInPaleGray(c, t[j].0);
    }
    LowerOfLowered(t[7].0);
    assert ContainsAt(c, t[7].0, 1);
    FirstColorNameAt(c, t, 7);
  }

  /** "浅灰色" (light gray) resolves to 8, the index of "灰色" (gray), not to 9. */
  lemma {:induction false} PaleGrayIsGray(command: string)
    requires command == "浅灰色"
    ensures ExtractColor(Some(command)) == 8
  {
    PaleGrayWord(command);
    PaleGrayFirstName(command);
    ExtractColorNamed(command, 8);
  }

  /** Only "浅灰色" and "Light Gray" carry index 9. */
  lemma {:induction false} NineEntries(i: nat)
    requires i < |ColorTable| && ColorTable[i].1 == 9
    ensures i == 8 || i == 21
  {
  }

  /** No name lookup yields 9: both names for it are shadowed by an earlier name for 8. */
  lemma {:induction false} NameNeverNine(c: string)
    ensures IndicesInRange(ColorTable)
    ensures FirstColorName(c, ColorTable) != Some(9)
  {
    ColorTableInRange();
    if FirstColorName(c, ColorTable) == Some(9) {
      FirstColorNameFound(c, ColorTable);
      var i :| && 0 <= i < |ColorTable| && Contains(c, Lower(ColorTable[i].0))
        && FirstColorName(c, ColorTable) == Some(ColorTable[i].1)
        && forall j :: 0 <= j < i ==> !Contains(c, Lower(ColorTable[j].0));
      NineEntries(i);
      if i == 8 {
        GrayShadowsPaleGray(c);
      } else {
        GrayShadowsLightGray(c);
      }
    }
  }

  /** Index 9 (light gray) comes only from the integer text for 9: no colour name reaches it. */
  lemma {:induction false} NineOnlyFromInteger(command: string)
    requires ExtractColor(Some(command)) == 9
    ensures ParseInt(command) == Some(9)
  {
    var n := ParseInt(command);
    if n.None? || n.value < 1 || n.value > 255 {
      ExtractColorByName(command);
      NameNeverNine(Lower(command));
    }
  }
}
