/** The quick-add text parser: finds a "tomorrow" or "today" keyword, removes it from
    the title and turns it into a due date. Time is a day count: `now` is today. */
module TaskParser {
  import opened Wrappers
  import opened Strings

  datatype ParsedTask = ParsedTask(title: string, dueDate: Option<int>)

  /** The title after keyword removal and trimming, before whitespace runs are collapsed. */
  function RawTitle(input: string): string {
    if Contains(Lower(input), "tomorrow") then Trim(ReplaceFirstIgnoreCase(input, "tomorrow", ""))
    else if Contains(Lower(input), "today") then Trim(ReplaceFirstIgnoreCase(input, "today", ""))
    else input
  }

  /** `taskParser.parse(input)` run on day `now`. */
  function Parse(input: string, now: int): ParsedTask {
    var dueDate :=
      if Contains(Lower(input), "tomorrow") then Some(now + 1)
      else if Contains(Lower(input), "today") then Some(now)
      else None;
    ParsedTask(CollapseSpaces(RawTitle(input), ' '), dueDate)
  }

  /** A due date is set exactly when either keyword occurs, in any letter case. */
  lemma ParseDueDate(input: string, now: int)
    ensures Parse(input, now).dueDate.Some? <==> Occurs(Lower(input), "tomorrow") || Occurs(Lower(input), "today")
  {
    ContainsOccurs(Lower(input), "tomorrow");
    ContainsOccurs(Lower(input), "today");
  }

  /** The title never holds two whitespace characters in a row. */
  lemma ParseTitleNoDoubleSpace(input: string, now: int)
    ensures NoDoubleSpace(Parse(input, now).title)
  {
    CollapseSpacesShape(RawTitle(input), ' ');
  }

  /** "tomorrow" in any letter case gives tomorrow's date; its first occurrence is cut
      out, the rest trimmed and its whitespace runs collapsed. "tomorrow" is looked for
      first, so it wins when "today" is present too. */
  lemma ParseTomorrow(input: string, now: int)
    requires Occurs(Lower(input), "tomorrow")
    ensures Parse(input, now).dueDate == Some(now + 1)
    ensures exists i :: (IsFirstOccurrence(Lower(input), "tomorrow", i)
      && Parse(input, now).title == CollapseSpaces(Trim(input[..i] + input[i + 8..]), ' '))
  {
    ContainsOccurs(Lower(input), "tomorrow");
    IndexOfFirst(Lower(input), "tomorrow");
    var i := IndexOf(Lower(input), "tomorrow").value;
    assert IsFirstOccurrence(Lower(input), "tomorrow", i);
    assert ReplaceFirstIgnoreCase(input, "tomorrow", "") == input[..i] + input[i + 8..];
    assert Parse(input, now).title == CollapseSpaces(RawTitle(input), ' ');
    assert RawTitle(input) == Trim(input[..i] + input[i + 8..]);
  }

  /** "today" without "tomorrow" gives today's date, with the first "today" cut out. */
  lemma ParseToday(input: string, now: int)
    requires !Occurs(Lower(input), "tomorrow") && Occurs(Lower(input), "today")
    ensures Parse(input, now).dueDate == Some(now)
    ensures exists i :: (IsFirstOccurrence(Lower(input), "today", i)
      && Parse(input, now).title == CollapseSpaces(Trim(input[..i] + input[i + 5..]), ' '))
  {
    ContainsOccurs(Lower(input), "tomorrow");
    ContainsOccurs(Lower(input), "today");
    IndexOfFirst(Lower(input), "today");
    var i := IndexOf(Lower(input), "today").value;
    assert IsFirstOccurrence(Lower(input), "today", i);
    assert ReplaceFirstIgnoreCase(input, "today", "") == input[..i] + input[i + 5..];
    assert Parse(input, now).title == CollapseSpaces(RawTitle(input), ' ');
    assert RawTitle(input) == Trim(input[..i] + input[i + 5..]);
  }

  /** Without a keyword nothing is removed and nothing trimmed: only whitespace runs collapse. */
  lemma ParseNoKeyword(input: string, now: int)
    requires !Occurs(Lower(input), "tomorrow") && !Occurs(Lower(input), "today")
    ensures Parse(input, now) == ParsedTask(CollapseSpaces(input, ' '), None)
  {
    ContainsOccurs(Lower(input), "tomorrow");
    ContainsOccurs(Lower(input), "today");
  }

  /** When a keyword was found the title is trimmed: it neither starts nor ends with whitespace. */
  lemma TitleTrimmedWithKeyword(input: string, now: int)
    requires Occurs(Lower(input), "tomorrow") || Occurs(Lower(input), "today")
    ensures var t := Parse(input, now).title;
      t == [] || (!IsSpace(t[0]) && !IsSpace(t[|t| - 1]))
  {
    ContainsOccurs(Lower(input), "tomorrow");
    ContainsOccurs(Lower(input), "today");
    var title := RawTitle(input);
    assert title == [] || (!IsSpace(title[0]) && !IsSpace(title[|title| - 1]));
    if title != [] {
      CollapseStartsWith(title, ' ');
      CollapseEndsWith(title, ' ');
    }
  }

  /** Without a keyword the title is not trimmed: leading whitespace survives as one space. */
  lemma LeadingSpaceKeptWithoutKeyword(input: string, now: int)
    requires !Occurs(Lower(input), "tomorrow") && !Occurs(Lower(input), "today")
    requires input != [] && IsSpace(input[0])
    ensures Parse(input, now).title != [] && Parse(input, now).title[0] == ' '
  {
    ContainsOccurs(Lower(input), "tomorrow");
    ContainsOccurs(Lower(input), "today");
  }

  lemma CutTodayFromTodays()
    ensures Contains(Lower("todays"), "today") && !Contains(Lower("todays"), "tomorrow")
    ensures ReplaceFirstIgnoreCase("todays", "today", "") == "s"
  {
    assert Lower("todays") == "todays";
    assert IndexOf("todays", "tomorrow") == None;
    assert IndexOf("todays", "today") == Some(0);
  }

  lemma TrimOneLetter()
    ensures Trim("s") == "s" && CollapseSpaces("s", ' ') == "s"
  {
    var s := "s";
    assert s[0] == 's' && |s| == 1 && !IsSpace('s');
    assert TrimStart(s) == s;
    assert TrimEnd(s) == s;
    assert s[1..] == [];
    assert CollapseSpaces(s, ' ') == [s[0]] + CollapseSpaces(s[1..], ' ');
  }

  /** Matching is by substring, not whole word: "todays" holds "today". */
  lemma SubstringNotWord(now: int)
    ensures Parse("todays", now) == ParsedTask("s", Some(now))
  {
    CutTodayFromTodays();
    TrimOneLetter();
    assert RawTitle("todays") == "s";
  }
}
