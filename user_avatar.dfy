/** The initials that components/shared/user-avatar.tsx shows when a user
    has no picture (`getInitials`, lines 20-26). Image loading and the size
    classes are not modelled. A name is a sequence of Unicode characters,
    whereas JavaScript's `slice` and `[0]` count UTF-16 code units; the two
    differ only for characters outside the Basic Multilingual Plane. */
module UserAvatar {
  import opened Text

  /** `part[0]` inside a template literal, as written: an empty part has no
      first character and renders as the text "undefined". */
  function FirstCharAsWritten(part: string): string {
    if part == "" then "undefined" else [part[0]]
  }

  /** `getInitials(name)` as written. */
  function GetInitialsAsWritten(name: string): (r: string)
    ensures |Split(name)| >= 2 && Split(name)[0] != "" && Split(name)[1] != "" ==> |r| == 2
    ensures |Split(name)| < 2 ==> |r| == if |name| < 2 then |name| else 2
  {
    var parts := Split(name);
    if |parts| >= 2 then ToUpper(FirstCharAsWritten(parts[0]) + FirstCharAsWritten(parts[1]))
    else ToUpper(if |name| < 2 then name else name[..2])
  }

  /** A name with a leading space (or two spaces in a row) gets the word
      "undefined" in its initials. */
  lemma LeadingSpaceGivesUndefined()
    ensures GetInitialsAsWritten(" Bob") == "UNDEFINEDB"
  {
    assert ' ' !in "Bob";
    SplitCons("", "Bob");
    assert "" + " " + "Bob" == " Bob";
    assert Split(" Bob") == ["", "Bob"];
    var s := FirstCharAsWritten("") + FirstCharAsWritten("Bob");
    assert s == "undefinedB";
    assert ToUpper(s) == "UNDEFINEDB";
  }

  /** The first character of a part, or nothing for an empty part. */
  function FirstChar(part: string): (r: string)
    ensures |r| <= 1 && r <= part
  {
    if part == "" then "" else [part[0]]
  }

  /** Initials as evidently intended: at most two characters, each the
      upper-cased form of a character of the name. */
  function GetInitials(name: string): (r: string)
    ensures |r| <= 2
    ensures forall c :: c in r ==> exists d :: d in name && c == UpperChar(d)
  {
    var parts := Split(name);
    SplitPartsFromString(name);
    if |parts| >= 2 then
      var r := ToUpper(FirstChar(parts[0]) + FirstChar(parts[1]));
      assert forall i :: 0 <= i < |r| ==> (FirstChar(parts[0]) + FirstChar(parts[1]))[i] in name;
      r
    else
      var w := if |name| < 2 then name else name[..2];
      assert forall c :: c in w ==> c in name;
      ToUpper(w)
  }

  /** Both versions agree whenever the first two words are non-empty. */
  lemma AgreesOnNonEmptyWords(name: string)
    requires |Split(name)| >= 2 ==> Split(name)[0] != "" && Split(name)[1] != ""
    ensures GetInitials(name) == GetInitialsAsWritten(name)
  {
  }

  lemma InitialsOfParts(name: string)
    requires |Split(name)| >= 2 && Split(name)[0] != "" && Split(name)[1] != ""
    ensures GetInitials(name) == [UpperChar(Split(name)[0][0]), UpperChar(Split(name)[1][0])]
  {
    var parts := Split(name);
    assert FirstChar(parts[0]) + FirstChar(parts[1]) == [parts[0][0], parts[1][0]];
  }

  lemma SplitTwoWords(first: string, second: string)
    requires ' ' !in first && ' ' !in second
    ensures Split(first + " " + second) == [first, second]
  {
    SplitCons(first, second);
    assert Split(second) == [second];
  }

  lemma SplitThreeWords(first: string, second: string, rest: string)
    requires ' ' !in first && ' ' !in second
    ensures |Split(first + " " + second + " " + rest)| >= 2
    ensures Split(first + " " + second + " " + rest)[0] == first
    ensures Split(first + " " + second + " " + rest)[1] == second
  {
    SplitCons(second, rest);
    SplitCons(first, second + " " + rest);
    assert first + " " + second + " " + rest == first + " " + (second + " " + rest);
  }

  /** Two or more words: the first letters of the first two, upper-cased;
      later words do not matter. */
  lemma InitialsOfWords(first: string, second: string, rest: string)
    requires first != "" && second != "" && ' ' !in first && ' ' !in second
    ensures GetInitials(first + " " + second) == [UpperChar(first[0]), UpperChar(second[0])]
    ensures GetInitials(first + " " + second + " " + rest) == [UpperChar(first[0]), UpperChar(second[0])]
  {
    SplitTwoWords(first, second);
    InitialsOfParts(first + " " + second);
    SplitThreeWords(first, second, rest);
    InitialsOfParts(first + " " + second + " " + rest);
  }

  /** A single word: its first two characters, upper-cased. */
  lemma InitialsOfOneWord(word: string)
    requires ' ' !in word
    ensures GetInitials(word) == ToUpper(if |word| < 2 then word else word[..2])
    ensures word == "" ==> GetInitials(word) == ""
  {
  }
}
