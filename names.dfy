/** Display names of exercises (src/lib/names.ts): built-in snake_case names
    become title-cased words; user-created names are kept verbatim. */
module Names {
  import opened Strings
  import opened Base

  /** Final words that are shown in parentheses. */
  const ParentheticalSuffixes: set<string> := {"assisted", "weighted"}

  /** One hyphen-separated part: first character upper-cased, the rest lower-cased. */
  function CapitalizePart(part: string): (r: string)
    ensures |r| == |part|
    ensures part != [] ==> r[0] == UpperChar(part[0]) && r[1..] == Lower(part[1..])
  {
    if part == [] then [] else [UpperChar(part[0])] + Lower(part[1..])
  }

  function CapitalizeParts(parts: seq<string>): (r: seq<string>)
    ensures |r| == |parts|
    ensures forall k :: 0 <= k < |parts| ==> r[k] == CapitalizePart(parts[k])
  {
    seq(|parts|, k requires 0 <= k < |parts| => CapitalizePart(parts[k]))
  }

  /** One underscore-separated word: its hyphen parts capitalised and rejoined with '-'. */
  function FormatWord(word: string): string
  {
    Join("-", CapitalizeParts(Split(word, '-')))
  }

  /** True when the lower-cased last word is one of the parenthetical suffixes. */
  predicate ShouldWrapLast(words: seq<string>)
    requires |words| >= 1
  {
    Lower(words[|words| - 1]) in ParentheticalSuffixes
  }

  function FormattedWords(words: seq<string>): (r: seq<string>)
    requires |words| >= 1
    ensures |r| == |words|
  {
    var wrap := ShouldWrapLast(words);
    seq(|words|, i requires 0 <= i < |words| =>
      if wrap && i == |words| - 1 then "(" + FormatWord(words[i]) + ")" else FormatWord(words[i]))
  }

  /** formatExerciseName: split on '_', format each word, join with spaces. */
  function FormatExerciseName(name: string): string
  {
    Join(" ", FormattedWords(Split(name, '_')))
  }

  /** formatExerciseDisplayName: a null or empty name is "(unnamed)" whatever the
      user-created flag; a user-created name is returned unchanged. */
  function FormatExerciseDisplayName(name: Option<string>, isUserCreated: bool): (r: string)
    ensures (name == None || name == Some("")) ==> r == "(unnamed)"
    ensures name.Some? && name.value != "" && isUserCreated ==> r == name.value
    ensures name.Some? && name.value != "" && !isUserCreated ==> r == FormatExerciseName(name.value)
  {
    if name.None? || name.value == "" then "(unnamed)"
    else if isUserCreated then name.value
    else FormatExerciseName(name.value)
  }

  // ---------------------------------------------------------------------------
  // Properties

  lemma CapitalizePartLacks(part: string, c: char)
    requires c !in part && !IsUpperAscii(c) && !IsLowerAscii(c)
    ensures c !in CapitalizePart(part)
  {
    if part != [] {
      CaseMapKeepsNonLetters(part[1..], c);
      assert c !in part[1..];
    }
  }

  /** A character that is not a letter, a hyphen or a parenthesis and does not
      occur in a word does not occur in that word's formatted text. */
  lemma FormatWordLacks(word: string, c: char)
    requires c !in word && c != '-' && c != '(' && c != ')'
    requires !IsUpperAscii(c) && !IsLowerAscii(c)
    ensures c !in FormatWord(word)
    ensures c !in "(" + FormatWord(word) + ")"
  {
    var parts := Split(word, '-');
    forall k | 0 <= k < |parts| ensures c !in CapitalizeParts(parts)[k] {
      SplitPartsLack(word, '-', c, k);
      CapitalizePartLacks(parts[k], c);
    }
    JoinLacks("-", CapitalizeParts(parts), c);
  }

  lemma FormattedWordsLack(name: string, c: char)
    requires c !in name && c != '-' && c != '(' && c != ')'
    requires !IsUpperAscii(c) && !IsLowerAscii(c)
    ensures forall k :: 0 <= k < |Split(name, '_')| ==> c !in FormattedWords(Split(name, '_'))[k]
  {
    var words := Split(name, '_');
    forall k | 0 <= k < |words| ensures c !in FormattedWords(words)[k] {
      SplitPartsLack(name, '_', c, k);
      FormatWordLacks(words[k], c);
    }
  }

  /** Word i of the formatted words is word i formatted, wrapped in parentheses
      when it is the last word and a suffix. */
  lemma FormattedWordAt(words: seq<string>, i: nat)
    requires i < |words|
    ensures FormattedWords(words)[i]
         == if ShouldWrapLast(words) && i == |words| - 1 then "(" + FormatWord(words[i]) + ")" else FormatWord(words[i])
  {
  }

  /** The built-in form never contains an underscore. */
  lemma NoUnderscoreInFormattedName(name: string)
    ensures '_' !in FormatExerciseName(name)
  {
    var words := Split(name, '_');
    forall k | 0 <= k < |words| ensures '_' !in FormatWord(words[k]) && '_' !in "(" + FormatWord(words[k]) + ")" {
      FormatWordLacks(words[k], '_');
    }
    JoinLacks(" ", FormattedWords(words), '_');
  }

  /** For a name without spaces, the built-in form has exactly one space-separated
      word per underscore-separated part; word k is part k formatted, and only the
      last word can be wrapped in parentheses, exactly when that part is a suffix. */
  lemma WordsOfFormattedName(name: string)
    requires ' ' !in name
    ensures var words := Split(name, '_');
      var out := Split(FormatExerciseName(name), ' ');
      && |out| == |words|
      && (forall k :: 0 <= k < |words| - 1 ==> out[k] == FormatWord(words[k]))
      && out[|words| - 1] == (if Lower(words[|words| - 1]) in ParentheticalSuffixes
                             then "(" + FormatWord(words[|words| - 1]) + ")"
                             else FormatWord(words[|words| - 1]))
  {
    var words := Split(name, '_');
    var formatted := FormattedWords(words);
    FormattedWordsLack(name, ' ');
    SplitJoin(' ', formatted);
    assert Split(FormatExerciseName(name), ' ') == formatted;
    forall k | 0 <= k < |words| - 1 ensures formatted[k] == FormatWord(words[k]) {
      FormattedWordAt(words, k);
    }
    FormattedWordAt(words, |words| - 1);
  }

  /** The built-in form has exactly |parts| - 1 spaces when the name has none. */
  lemma SpaceCountOfFormattedName(name: string)
    requires ' ' !in name
    ensures Count(FormatExerciseName(name), ' ') == |Split(name, '_')| - 1
  {
    FormattedWordsLack(name, ' ');
    JoinCount(' ', FormattedWords(Split(name, '_')));
  }

  /** Each hyphen part of a word comes out with its first character upper-cased
      and the rest lower-cased, rejoined with '-'. */
  lemma HyphenPartsOfFormattedWord(word: string)
    ensures Split(FormatWord(word), '-') == CapitalizeParts(Split(word, '-'))
  {
    var parts := Split(word, '-');
    forall k | 0 <= k < |parts| ensures '-' !in CapitalizeParts(parts)[k] {
      CapitalizePartLacks(parts[k], '-');
    }
    SplitJoin('-', CapitalizeParts(parts));
  }

  // Concrete cases (the names test file). Each takes the name as a parameter so
  // that the verifier unfolds the definitions step by step.

  lemma SplitCons(a: string, sep: char, b: string)
    requires sep !in a
    ensures Split(a + [sep] + b, sep) == [a] + Split(b, sep)
  {
    var s := a + [sep] + b;
    assert s[|a|] == sep && s[..|a|] == a && s[|a| + 1..] == b;
  }

  lemma SplitThree(a: string, b: string, c: string, sep: char)
    requires sep !in a && sep !in b && sep !in c
    ensures Split(a + [sep] + b + [sep] + c, sep) == [a, b, c]
  {
    var tail := b + [sep] + c;
    SplitCons(b, sep, c);
    SplitAbsent(c, sep);
    assert Split(tail, sep) == [b, c];
    assert a + [sep] + b + [sep] + c == a + [sep] + tail;
    SplitCons(a, sep, tail);
    assert [a] + [b, c] == [a, b, c];
  }

  lemma SplitAbsent(s: string, sep: char)
    requires sep !in s
    ensures Split(s, sep) == [s]
  {
  }

  lemma LowerOfLowercase(s: string)
    requires forall k :: 0 <= k < |s| ==> !IsUpperAscii(s[k])
    ensures Lower(s) == s
  {
  }

  lemma FormatPlainWord(w: string)
    requires '-' !in w && w != []
    requires forall k :: 0 <= k < |w| ==> !IsUpperAscii(w[k])
    ensures FormatWord(w) == [UpperChar(w[0])] + w[1..]
  {
    LowerOfLowercase(w[1..]);
  }

  lemma JoinTwo(sep: string, x: string, y: string)
    ensures Join(sep, [x, y]) == x + sep + y
  {
    assert [x, y][1..] == [y];
  }

  lemma JoinThree(sep: string, x: string, y: string, z: string)
    ensures Join(sep, [x, y, z]) == x + sep + y + sep + z
  {
    assert [x, y, z][1..] == [y, z];
    JoinTwo(sep, y, z);
  }

  /** The formatted last word, wrapped in parentheses when it is a suffix. */
  function LastWordForm(w: string): string
  {
    if Lower(w) in ParentheticalSuffixes then "(" + FormatWord(w) + ")" else FormatWord(w)
  }

  lemma FormatTwoWords(a: string, b: string)
    requires '_' !in a && '_' !in b
    ensures FormatExerciseName(a + "_" + b) == FormatWord(a) + " " + LastWordForm(b)
  {
    SplitCons(a, '_', b);
    SplitAbsent(b, '_');
    assert Split(a + "_" + b, '_') == [a, b];
    NameOfWords(a + "_" + b, [a, b]);
    FormattedTwo([a, b]);
    JoinTwo(" ", FormatWord(a), LastWordForm(b));
  }

  lemma FormatThreeWords(a: string, b: string, c: string)
    requires '_' !in a && '_' !in b && '_' !in c
    ensures FormatExerciseName(a + "_" + b + "_" + c)
         == FormatWord(a) + " " + FormatWord(b) + " " + LastWordForm(c)
  {
    SplitThree(a, b, c, '_');
    NameOfWords(a + "_" + b + "_" + c, [a, b, c]);
    FormattedThree([a, b, c]);
    JoinThree(" ", FormatWord(a), FormatWord(b), LastWordForm(c));
  }

  lemma NameOfWords(name: string, words: seq<string>)
    requires Split(name, '_') == words
    ensures FormatExerciseName(name) == Join(" ", FormattedWords(words))
  {
  }

  lemma FormattedTwo(words: seq<string>)
    requires |words| == 2
    ensures FormattedWords(words) == [FormatWord(words[0]), LastWordForm(words[1])]
  {
    FormattedWordAt(words, 0);
    FormattedWordAt(words, 1);
  }

  lemma FormattedThree(words: seq<string>)
    requires |words| == 3
    ensures FormattedWords(words) == [FormatWord(words[0]), FormatWord(words[1]), LastWordForm(words[2])]
  {
    FormattedWordAt(words, 0);
    FormattedWordAt(words, 1);
    FormattedWordAt(words, 2);
  }

  lemma ThreeWordsAre(a: string, b: string, c: string, x: string, y: string, z: string)
    requires '_' !in a && '_' !in b && '_' !in c
    requires FormatWord(a) == x && FormatWord(b) == y && LastWordForm(c) == z
    ensures FormatExerciseName(a + "_" + b + "_" + c) == x + " " + y + " " + z
  {
    FormatThreeWords(a, b, c);
  }

  lemma TwoWordsAre(a: string, b: string, x: string, y: string)
    requires '_' !in a && '_' !in b
    requires FormatWord(a) == x && LastWordForm(b) == y
    ensures FormatExerciseName(a + "_" + b) == x + " " + y
  {
    FormatTwoWords(a, b);
  }

  /* Spelled-out texts of the examples below, proved apart from the name
     formatter so that the solver never unfolds it on concrete strings. */
  lemma SpacedTwo(x: string, y: string, w: string)
    requires (x, y, w) == ("Barbell", "Curl", "Barbell Curl") || (x, y, w) == ("Bench", "Press", "Bench Press")
    ensures x + " " + y == w
  {
  }

  lemma SpacedThree(x: string, y: string, z: string, w: string)
    requires (x, y, z, w) == ("Pull", "Up", "(Weighted)", "Pull Up (Weighted)")
          || (x, y, z, w) == ("Iso-Lateral", "Chest", "Press", "Iso-Lateral Chest Press")
    ensures x + " " + y + " " + z == w
  {
  }

  lemma FormatTwoParts(a: string, b: string)
    requires '-' !in a && '-' !in b && a != [] && b != []
    ensures FormatWord(a + "-" + b) == CapitalizePart(a) + "-" + CapitalizePart(b)
  {
    SplitCons(a, '-', b);
    assert Split(b, '-') == [b];
    assert Split(a + "-" + b, '-') == [a, b];
    var cp := CapitalizeParts([a, b]);
    assert cp == [CapitalizePart(a), CapitalizePart(b)];
    JoinTwo("-", cp[0], cp[1]);
    assert FormatWord(a + "-" + b) == Join("-", cp);
  }

  lemma BarbellCurlWords(a: string, b: string)
    requires a == "barbell" && b == "curl"
    ensures FormatWord(a) == "Barbell" && LastWordForm(b) == "Curl"
  {
    FormatPlainWord(a);
    FormatPlainWord(b);
    LowerOfLowercase(b);
    assert b !in ParentheticalSuffixes;
  }

  lemma BarbellCurl(a: string, b: string)
    requires a == "barbell" && b == "curl"
    ensures FormatExerciseName(a + "_" + b) == "Barbell Curl"
  {
    assert '_' !in a && '_' !in b;
    BarbellCurlWords(a, b);
    TwoWordsAre(a, b, "Barbell", "Curl");
    SpacedTwo("Barbell", "Curl", "Barbell Curl");
  }

  lemma PullUpWords(a: string, b: string)
    requires a == "pull" && b == "up"
    ensures FormatWord(a) == "Pull" && FormatWord(b) == "Up"
  {
    FormatPlainWord(a);
    FormatPlainWord(b);
  }

  lemma WeightedLast(c: string)
    requires c == "weighted"
    ensures LastWordForm(c) == "(Weighted)"
  {
    FormatPlainWord(c);
    LowerOfLowercase(c);
    assert c in ParentheticalSuffixes;
  }

  lemma PullUpWeighted(a: string, b: string, c: string)
    requires a == "pull" && b == "up" && c == "weighted"
    ensures FormatExerciseName(a + "_" + b + "_" + c) == "Pull Up (Weighted)"
  {
    assert '_' !in a && '_' !in b && '_' !in c;
    PullUpWords(a, b);
    WeightedLast(c);
    ThreeWordsAre(a, b, c, "Pull", "Up", "(Weighted)");
    SpacedThree("Pull", "Up", "(Weighted)", "Pull Up (Weighted)");
  }

  lemma IsoLateral(a: string, b: string)
    requires a == "iso" && b == "lateral"
    ensures FormatWord(a + "-" + b) == "Iso-Lateral"
  {
    assert '-' !in a && '-' !in b && a != [] && b != [];
    FormatTwoParts(a, b);
    CapitalizedIs(a, "Iso");
    CapitalizedIs(b, "Lateral");
    HyphenedIso("Iso", "Lateral");
  }

  lemma CapitalizedIs(w: string, x: string)
    requires (w, x) == ("iso", "Iso") || (w, x) == ("lateral", "Lateral")
    ensures CapitalizePart(w) == x
  {
    CapitalizeLowercase(w);
  }

  lemma CapitalizeLowercase(w: string)
    requires w != [] && forall k :: 0 <= k < |w| ==> !IsUpperAscii(w[k])
    ensures CapitalizePart(w) == [UpperChar(w[0])] + w[1..]
  {
    LowerOfLowercase(w[1..]);
  }

  lemma HyphenedIso(x: string, y: string)
    requires x == "Iso" && y == "Lateral"
    ensures x + "-" + y == "Iso-Lateral"
  {
  }

  lemma ChestPressWords(c: string, d: string)
    requires c == "chest" && d == "press"
    ensures FormatWord(c) == "Chest" && LastWordForm(d) == "Press"
  {
    FormatPlainWord(c);
    FormatPlainWord(d);
    LowerOfLowercase(d);
    assert d !in ParentheticalSuffixes;
  }

  lemma IsoLateralChestPress(a: string, b: string, c: string, d: string)
    requires a == "iso" && b == "lateral" && c == "chest" && d == "press"
    ensures FormatExerciseName(a + "-" + b + "_" + c + "_" + d) == "Iso-Lateral Chest Press"
  {
    assert '_' !in a + "-" + b && '_' !in c && '_' !in d;
    IsoLateral(a, b);
    ChestPressWords(c, d);
    ThreeWordsAre(a + "-" + b, c, d, "Iso-Lateral", "Chest", "Press");
    SpacedThree("Iso-Lateral", "Chest", "Press", "Iso-Lateral Chest Press");
  }

  lemma FormatOneWord(a: string)
    requires '_' !in a
    ensures FormatExerciseName(a) == LastWordForm(a)
  {
    assert Split(a, '_') == [a];
    assert FormattedWords([a]) == [LastWordForm(a)];
  }

  lemma SingleWord(a: string, x: string)
    requires '_' !in a && '-' !in a && a != []
    requires forall k :: 0 <= k < |a| ==> !IsUpperAscii(a[k])
    requires a !in ParentheticalSuffixes && x == [UpperChar(a[0])] + a[1..]
    ensures FormatExerciseName(a) == x
  {
    FormatOneWord(a);
    FormatPlainWord(a);
    LowerOfLowercase(a);
  }

  /** The built-in names of the test fixture: `squat`, `bench` and `bench_press`. */
  lemma SquatName(s: string)
    requires s == "squat"
    ensures FormatExerciseName(s) == "Squat"
  {
    SingleWord(s, "Squat");
  }

  lemma BenchName(b: string)
    requires b == "bench"
    ensures FormatExerciseName(b) == "Bench"
  {
    SingleWord(b, "Bench");
  }

  lemma PressLast(p: string)
    requires p == "press"
    ensures LastWordForm(p) == "Press"
  {
    FormatPlainWord(p);
    LowerOfLowercase(p);
    assert p !in ParentheticalSuffixes;
  }

  lemma BenchWord(b: string)
    requires b == "bench"
    ensures FormatWord(b) == "Bench"
  {
    FormatPlainWord(b);
  }

  lemma BenchPressName(b: string, p: string)
    requires b == "bench" && p == "press"
    ensures FormatExerciseName(b + "_" + p) == "Bench Press"
  {
    assert '_' !in b && '_' !in p;
    BenchWord(b);
    PressLast(p);
    TwoWordsAre(b, p, "Bench", "Press");
    SpacedTwo("Bench", "Press", "Bench Press");
  }
}
