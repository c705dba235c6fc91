/** Two labels on `user` profile pages: the kind of an activity, and the readable name of a badge flag. */
module UserProfile {
  import opened Text

  // ---------------------------------------------------------------------------
  // Activity kind

  /** The activity kinds the `activity` page names; the platform's type codes 0 to 5, then a catch-all. */
  datatype ActivityKind = Playing | Streaming | Listening | Watching | Custom | Competing | Unknown
  {
    /** The type code of a named kind; the catch-all answers -1, which is no code. */
    function Code(): int
    {
      match this
      case Playing => 0
      case Streaming => 1
      case Listening => 2
      case Watching => 3
      case Custom => 4
      case Competing => 5
      case Unknown => -1
    }
  }

  /** The ternary chain on `activity.type`. */
  function KindOf(activityType: int): ActivityKind
  {
    if activityType == 0 then Playing
    else if activityType == 1 then Streaming
    else if activityType == 2 then Listening
    else if activityType == 3 then Watching
    else if activityType == 4 then Custom
    else if activityType == 5 then Competing
    else Unknown
  }

  /** Codes 0 to 5 each have their own kind and read back to themselves; every other code is Unknown. */
  lemma KindOfRoundTrip(activityType: int, kind: ActivityKind)
    ensures kind != Unknown ==> KindOf(kind.Code()) == kind
    ensures KindOf(activityType) == Unknown <==> !(0 <= activityType <= 5)
    ensures KindOf(activityType) != Unknown ==> KindOf(activityType).Code() == activityType
  {
  }

  // ---------------------------------------------------------------------------
  // Badge names

  /** `replace(/([A-Z])/g, ' $1')`: a space in front of every capital letter. */
  function SpaceCapitals(s: string): (r: string)
    ensures |r| >= |s|
  {
    if |s| == 0 then ""
    else (if IsUpper(s[0]) then [' ', s[0]] else [s[0]]) + SpaceCapitals(s[1..])
  }

  /** Leading spaces removed. */
  function TrimStart(s: string): (r: string)
    ensures |r| <= |s|
    ensures |r| > 0 ==> r[0] != ' '
    ensures r == s[|s| - |r|..]
  {
    if |s| > 0 && s[0] == ' ' then TrimStart(s[1..]) else s
  }

  /** Trailing spaces removed. */
  function TrimEnd(s: string): (r: string)
    ensures |r| <= |s|
    ensures |r| > 0 ==> r[|r| - 1] != ' '
    ensures r == s[..|r|]
  {
    if |s| > 0 && s[|s| - 1] == ' ' then TrimEnd(s[..|s| - 1]) else s
  }

  /** `badge.replace(/([A-Z])/g, ' $1').trim()`, for flag names, whose only whitespace could be spaces. */
  function BadgeName(flag: string): string
  {
    TrimEnd(TrimStart(SpaceCapitals(flag)))
  }

  lemma {:induction false} SpaceCapitalsOnlyAddsSpaces(s: string)
    ensures Strip(SpaceCapitals(s), {' '}) == Strip(s, {' '})
    decreases |s|
  {
    if |s| > 0 {
      var head := if IsUpper(s[0]) then [' ', s[0]] else [s[0]];
      SpaceCapitalsOnlyAddsSpaces(s[1..]);
      StripAppend(head, SpaceCapitals(s[1..]), {' '});
      StripAppend([s[0]], s[1..], {' '});
      assert s == [s[0]] + s[1..];
      if IsUpper(s[0]) {
        StripAppend([' '], [s[0]], {' '});
        assert head == [' '] + [s[0]];
        assert Strip([' '], {' '}) == [];
      }
    }
  }

  lemma {:induction false} TrimStartOnlyDropsSpaces(s: string)
    ensures Strip(TrimStart(s), {' '}) == Strip(s, {' '})
    decreases |s|
  {
    if |s| > 0 && s[0] == ' ' {
      TrimStartOnlyDropsSpaces(s[1..]);
    }
  }

  lemma {:induction false} TrimEndOnlyDropsSpaces(s: string)
    ensures Strip(TrimEnd(s), {' '}) == Strip(s, {' '})
    decreases |s|
  {
    if |s| > 0 && s[|s| - 1] == ' ' {
      var init := s[..|s| - 1];
      TrimEndOnlyDropsSpaces(init);
      assert s == init + [' '];
      StripAppend(init, [' '], {' '});
      assert Strip([' '], {' '}) == [];
    }
  }

  /** Every capital letter after the first character has a space right before it, and every space has a capital letter right after it. */
  predicate WordBreaks(r: string)
  {
    && (forall j :: 0 < j < |r| && IsUpper(r[j]) ==> r[j - 1] == ' ')
    && (forall j :: 0 <= j < |r| && r[j] == ' ' ==> j + 1 < |r| && IsUpper(r[j + 1]))
  }

  /** In a text without spaces, the replacement puts a space before each capital letter and nowhere else. */
  lemma {:induction false} SpaceCapitalsBreaksWords(s: string)
    requires ' ' !in s
    ensures WordBreaks(SpaceCapitals(s))
    ensures |SpaceCapitals(s)| > 0 ==> !IsUpper(SpaceCapitals(s)[0])
    decreases |s|
  {
    if |s| > 0 {
      var head := if IsUpper(s[0]) then [' ', s[0]] else [s[0]];
      var rest := SpaceCapitals(s[1..]);
      assert ' ' !in s[1..] by {
        forall c | c in s[1..] ensures c != ' ' {
          assert c in s;
        }
      }
      SpaceCapitalsBreaksWords(s[1..]);
      var r := head + rest;
      assert r == SpaceCapitals(s);
      forall j | 0 < j < |r| && IsUpper(r[j]) ensures r[j - 1] == ' ' {
        if j >= |head| {
          assert r[j] == rest[j - |head|];
        }
      }
      forall j | 0 <= j < |r| && r[j] == ' ' ensures j + 1 < |r| && IsUpper(r[j + 1]) {
        if j >= |head| {
          assert r[j] == rest[j - |head|];
          assert r[j + 1] == rest[j + 1 - |head|];
        } else {
          assert s[0] in s;
        }
      }
    }
  }

  /** Leading spaces dropped: the word breaks that remain are intact, and the text starts on a letter. */
  lemma TrimStartKeepsWordBreaks(s: string)
    requires WordBreaks(s)
    ensures WordBreaks(TrimStart(s))
  {
    var r := TrimStart(s);
    var k := |s| - |r|;
    forall j | 0 < j < |r| && IsUpper(r[j]) ensures r[j - 1] == ' ' {
      assert r[j] == s[k + j];
      assert r[j - 1] == s[k + j - 1];
    }
    forall j | 0 <= j < |r| && r[j] == ' ' ensures j + 1 < |r| && IsUpper(r[j + 1]) {
      assert r[j] == s[k + j];
    }
  }

  /** Trailing spaces dropped: no space was followed by a capital, so none go and no break is lost. */
  lemma TrimEndKeepsWordBreaks(s: string)
    requires WordBreaks(s)
    ensures WordBreaks(TrimEnd(s))
  {
    var r := TrimEnd(s);
    forall j | 0 <= j < |r| && r[j] == ' ' ensures j + 1 < |r| && IsUpper(r[j + 1]) {
      assert r[j] == s[j];
    }
  }

  /**
   * A badge name neither starts nor ends with a space, and deleting its
   * spaces gives back the flag it was made from: the rule only inserts word
   * breaks, and it inserts one exactly before each capital letter after the
   * first character.
   */
  lemma BadgeNameRoundTrip(flag: string)
    requires ' ' !in flag
    ensures var name := BadgeName(flag);
      && (|name| > 0 ==> name[0] != ' ' && name[|name| - 1] != ' ')
      && Strip(name, {' '}) == flag
      && WordBreaks(name)
  {
    var spaced := SpaceCapitals(flag);
    var started := TrimStart(spaced);
    var name := TrimEnd(started);
    if |name| > 0 {
      assert name[0] == started[0];
    }
    SpaceCapitalsOnlyAddsSpaces(flag);
    TrimStartOnlyDropsSpaces(spaced);
    TrimEndOnlyDropsSpaces(started);
    StripUntouched(flag, {' '});
    SpaceCapitalsBreaksWords(flag);
    TrimStartKeepsWordBreaks(spaced);
    TrimEndKeepsWordBreaks(started);
  }
}
