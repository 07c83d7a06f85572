/** The user avatar (src/components/common/UserAvatar.tsx): the initials
    shown when there is no picture, and the colour of the role. */
module Avatar {
  import opened Types
  import opened Seqs
  import opened Text

  /** `.map(part => part[0]).join('')`: the first character of every part;
      an empty part gives `undefined`, which `join` renders as nothing. */
  function FirstChars(parts: seq<string>): string
  {
    if parts == [] then []
    else (if parts[0] == [] then [] else [parts[0][0]]) + FirstChars(parts[1..])
  }

  /** `getInitials`. */
  function Initials(name: string): string
  {
    ToUpper(FirstChars(Split(name, ' ')))
  }

  /** Reference reading of the initials: scanning the name, every character
      that is not a space and starts the name or follows a space; `atStart`
      says whether the previous character was a space (or there was none). */
  function WordStarts(s: string, atStart: bool): string
  {
    if s == [] then []
    else if s[0] == ' ' then WordStarts(s[1..], true)
    else (if atStart then [s[0]] else []) + WordStarts(s[1..], false)
  }

  /** Splitting and taking first characters is the scan, for any part `cur`
      read so far. */
  lemma {:induction false} FirstCharsOfSplit(s: string, cur: string)
    ensures FirstChars(SplitFrom(s, ' ', cur)) ==
      if cur == [] then WordStarts(s, true) else [cur[0]] + WordStarts(s, false)
  {
    if s == [] {
    } else if s[0] == ' ' {
      FirstCharsOfSplit(s[1..], []);
      assert SplitFrom(s, ' ', cur) == [cur] + SplitFrom(s[1..], ' ', []);
      assert FirstChars(SplitFrom(s, ' ', cur)) ==
        (if cur == [] then [] else [cur[0]]) + FirstChars(SplitFrom(s[1..], ' ', []));
    } else {
      FirstCharsOfSplit(s[1..], cur + [s[0]]);
      assert (cur + [s[0]])[0] == if cur == [] then s[0] else cur[0];
    }
  }

  /** The initials are the uppercased word starts of the name. */
  lemma InitialsAreWordStarts(name: string)
    ensures Initials(name) == ToUpper(WordStarts(name, true))
  {
    FirstCharsOfSplit(name, []);
  }

  predicate NonEmpty(part: string)
  {
    part != []
  }

  /** One character per non-empty part. */
  lemma {:induction false} FirstCharsLength(parts: seq<string>)
    ensures |FirstChars(parts)| == Count(parts, NonEmpty)
  {
    if parts != [] {
      FirstCharsLength(parts[1..]);
    }
  }

  /** Leading, trailing and doubled spaces contribute nothing: the initials
      have one character per non-empty part of the split. */
  lemma InitialsLength(name: string)
    ensures |Initials(name)| == Count(Split(name, ' '), NonEmpty)
  {
    FirstCharsLength(Split(name, ' '));
  }

  /** A non-empty name without spaces gives its own first character,
      uppercased. */
  lemma SingleWordInitial(name: string)
    requires name != [] && forall i :: 0 <= i < |name| ==> name[i] != ' '
    ensures Initials(name) == [UpperChar(name[0])]
  {
    SplitNoSeparator(name, ' ', []);
    assert [] + name == name;
    assert FirstChars([name]) == [name[0]];
  }

  /** A word without spaces contributes its first character exactly when it
      starts a word. */
  lemma {:induction false} WordStartsOfWord(w: string, atStart: bool)
    requires forall i :: 0 <= i < |w| ==> w[i] != ' '
    ensures WordStarts(w, atStart) == if atStart && w != [] then [w[0]] else []
  {
    if w != [] {
      assert forall i :: 0 <= i < |w[1..]| ==> w[1..][i] == w[i + 1];
      WordStartsOfWord(w[1..], false);
    }
  }

  /** A word followed by a space: the word's contribution, then the rest
      read as starting a word. */
  lemma {:induction false} WordStartsOfWordThenSpace(w: string, rest: string, atStart: bool)
    requires forall i :: 0 <= i < |w| ==> w[i] != ' '
    ensures WordStarts(w + " " + rest, atStart) ==
      (if atStart && w != [] then [w[0]] else []) + WordStarts(rest, true)
  {
    if w == [] {
      assert w + " " + rest == [' '] + rest;
      assert ([' '] + rest)[1..] == rest;
    } else {
      assert (w + " " + rest)[1..] == w[1..] + " " + rest;
      assert forall i :: 0 <= i < |w[1..]| ==> w[1..][i] == w[i + 1];
      WordStartsOfWordThenSpace(w[1..], rest, false);
    }
  }

  /** Two words separated by one space give both first characters,
      uppercased. */
  lemma TwoWordInitials(first: string, last: string)
    requires first != [] && forall i :: 0 <= i < |first| ==> first[i] != ' '
    requires last != [] && forall i :: 0 <= i < |last| ==> last[i] != ' '
    ensures Initials(first + " " + last) == [UpperChar(first[0]), UpperChar(last[0])]
  {
    InitialsAreWordStarts(first + " " + last);
    WordStartsOfWordThenSpace(first, last, true);
    WordStartsOfWord(last, true);
  }

  /** "John Smith" gives "JS". */
  lemma JohnSmith()
    ensures Initials("John Smith") == "JS"
  {
    var first, last := "John", "Smith";
    TwoWordInitials(first, last);
    assert first + " " + last == "John Smith";
  }

  const MutedClass := "bg-muted text-foreground"

  /** `getRoleColor` on a role string: one class per role, the muted class
      for any other string. */
  function RoleColor(role: string): (c: string)
    ensures ParseRole(role).None? <==> c == MutedClass
  {
    match ParseRole(role)
    case Some(Farmer) => "bg-role-farmer text-white"
    case Some(Transporter) => "bg-role-transporter text-white"
    case Some(Warehouse) => "bg-role-warehouse text-white"
    case Some(Retailer) => "bg-role-retailer text-white"
    case Some(Consumer) => "bg-role-consumer text-white"
    case Some(Admin) => "bg-primary text-white"
    case None => MutedClass
  }

  /** The six roles get six distinct classes. */
  lemma RoleColorDistinct(r: Role, q: Role)
    ensures RoleColor(RoleName(r)) == RoleColor(RoleName(q)) <==> r == q
  {
    RoleNameRoundTrip(r);
    RoleNameRoundTrip(q);
  }
}
