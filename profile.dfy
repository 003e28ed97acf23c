/**
 * The profile screen (src/components/ProfileScreen.tsx): constant profile
 * data per language, the avatar fallback built from the name as
 * `name.split(' ').map(n => n[0]).join('')`, four statistics and four
 * buttons whose handlers only raise an alert and change no state.
 */
module ProfileScreen {

  import opened App
  import opened Strings

  /** `n[0]` as `join` renders it: the first character, or "" for an empty part, whose `n[0]` is `undefined`. */
  function Head(part: string): (r: string)
    ensures |r| <= 1 && (r == [] <==> part == [])
    ensures r != [] ==> r[0] == part[0]
  {
    if part == [] then [] else [part[0]]
  }

  /** `parts.map(n => n[0])`. */
  function Heads(parts: seq<string>): seq<string> {
    if parts == [] then [] else [Head(parts[0])] + Heads(parts[1..])
  }

  /** The avatar fallback text. */
  function Initials(name: string): string {
    Join(Heads(Split(name, ' ')), [])
  }

  /**
   * Reference definition: the characters of `s` that start a word, that is
   * that are not a space and come first or after a space. `atStart` says
   * whether the character before `s` was a space (or there was none).
   */
  function WordStarts(s: string, atStart: bool): string {
    if s == [] then []
    else (if atStart && s[0] != ' ' then [s[0]] else []) + WordStarts(s[1..], s[0] == ' ')
  }

  /** The number of non-empty parts. */
  function NonEmptyCount(parts: seq<string>): nat {
    if parts == [] then 0 else (if parts[0] == [] then 0 else 1) + NonEmptyCount(parts[1..])
  }

  /** Joining with the empty separator puts a part in front of the join of the rest. */
  lemma JoinEmptyCons(parts: seq<string>)
    requires parts != []
    ensures Join(parts, []) == parts[0] + Join(parts[1..], [])
  {
    if |parts| == 1 {
      assert parts[1..] == [];
    }
  }

  /**
   * The heads of the parts of a split are the word starts: of all parts when
   * `s` is read from the start of a word, and of the parts after the first
   * when `s` continues a word.
   */
  lemma {:induction false} HeadsOfSplit(s: string)
    ensures Join(Heads(Split(s, ' ')), []) == WordStarts(s, true)
    ensures Join(Heads(Split(s, ' ')[1..]), []) == WordStarts(s, false)
  {
    if s != [] {
      var rest := Split(s[1..], ' ');
      HeadsOfSplit(s[1..]);
      var parts := Split(s, ' ');
      if s[0] == ' ' {
        assert parts == [[]] + rest;
        assert parts[1..] == rest;
        JoinEmptyCons(Heads(parts));
        assert Heads(parts)[1..] == Heads(rest);
      } else {
        assert parts == [[s[0]] + rest[0]] + rest[1..];
        assert parts[1..] == rest[1..];
        JoinEmptyCons(Heads(parts));
        assert Heads(parts)[1..] == Heads(rest[1..]);
      }
    }
  }

  /** The avatar shows the initial of every word of the name, in order, and nothing else. */
  lemma InitialsAreWordStarts(name: string)
    ensures Initials(name) == WordStarts(name, true)
  {
    HeadsOfSplit(name);
  }

  /** One initial per non-empty part: an empty part (from repeated spaces) contributes nothing. */
  lemma {:induction false} InitialsCount(parts: seq<string>)
    ensures |Join(Heads(parts), [])| == NonEmptyCount(parts)
    ensures |Join(Heads(parts), [])| <= |parts|
  {
    if parts != [] {
      InitialsCount(parts[1..]);
      JoinEmptyCons(Heads(parts));
      assert Heads(parts)[1..] == Heads(parts[1..]);
    }
  }

  /** The name shown in each language. */
  function Name(l: Language): string {
    match l
    case En => "Muhammad Ahmad"
    case Ur => "محمد احمد"
  }

  /** The main crops listed in each language. */
  function MainCrops(l: Language): seq<string> {
    match l
    case En => ["Wheat", "Cotton", "Rice"]
    case Ur => ["گندم", "کپاس", "چاول"]
  }

  /** The four statistic values: total advice, diseases detected, yield predictions, water saved. */
  function StatValues(l: Language): seq<string> {
    match l
    case En => ["47", "8", "12", "15,000"]
    case Ur => ["47", "8", "12", "15,000"]
  }

  /** For a name made of space-free parts joined by single spaces, the split recovers the parts. */
  lemma InitialsOfJoin(parts: seq<string>)
    requires |parts| >= 1 && forall k :: 0 <= k < |parts| ==> ' ' !in parts[k]
    ensures Initials(Join(parts, [' '])) == Join(Heads(parts), [])
  {
    SplitJoin(parts, ' ');
  }

  /** "Muhammad Ahmad" gives "MA", and "محمد احمد" gives its two initials "ما". */
  lemma ShownInitials()
    ensures Initials(Name(En)) == "MA"
    ensures Initials(Name(Ur)) == "ما"
  {
    var en := ["Muhammad", "Ahmad"];
    assert Join(en, [' ']) == Name(En) by {
      assert en[1..] == ["Ahmad"];
    }
    assert Join(Heads(en), []) == "MA" by {
      assert en[1..] == ["Ahmad"] && en[1..][1..] == [];
      assert Heads(en) == ["M", "A"];
      assert ["M", "A"][1..] == ["A"];
    }
    InitialsOfJoin(en);
    var ur := ["محمد", "احمد"];
    assert Join(ur, [' ']) == Name(Ur) by {
      assert ur[1..] == ["احمد"];
    }
    assert Join(Heads(ur), []) == "ما" by {
      assert ur[1..] == ["احمد"] && ur[1..][1..] == [];
      assert Heads(ur) == ["م", "ا"];
      assert ["م", "ا"][1..] == ["ا"];
    }
    InitialsOfJoin(ur);
  }

  /** A doubled space yields an empty part, which adds nothing: "Muhammad  Ahmad" still gives "MA". */
  lemma DoubleSpaceInitials()
    ensures Initials("Muhammad  Ahmad") == "MA"
  {
    var parts := ["Muhammad", "", "Ahmad"];
    assert Join(parts, [' ']) == "Muhammad  Ahmad" by {
      assert parts[1..] == ["", "Ahmad"] && parts[1..][1..] == ["Ahmad"];
    }
    assert Join(Heads(parts), []) == "MA" by {
      assert parts[1..] == ["", "Ahmad"] && parts[1..][1..] == ["Ahmad"] && parts[1..][1..][1..] == [];
      assert Heads(parts) == ["M", "", "A"];
      assert ["M", "", "A"][1..] == ["", "A"] && ["M", "", "A"][1..][1..] == ["A"];
    }
    InitialsOfJoin(parts);
  }

  /** The statistics do not depend on the language, and both languages list three crops. */
  lemma ShippedData(l: Language)
    ensures StatValues(l) == StatValues(Toggled(l))
    ensures |StatValues(l)| == 4
    ensures |MainCrops(l)| == |MainCrops(Toggled(l))| == 3
  {
  }
}
