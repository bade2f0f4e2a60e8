/** The password-protected memory room: a password form, then one card per
    playable level showing the unlocked memory or a default photo. */
module MemoryRoomScreen {
  import opened Options
  import opened Progress

  const CorrectPassword := "iloveyou"

  /** The number of cards in the grid, one per playable level. */
  const CardCount := 5

  // ---------------------------------------------------------------------
  // Case-insensitive comparison (ASCII letters only)

  predicate IsUpper(c: char) { 'A' <= c <= 'Z' }

  function LowerChar(c: char): (r: char)
    ensures !IsUpper(r)
    ensures IsUpper(c) ==> r as int == c as int + 32
    ensures !IsUpper(c) ==> r == c
  {
    if IsUpper(c) then (c as int + 32) as char else c
  }

  /** `String.prototype.toLowerCase` restricted to ASCII letters. */
  function ToLower(s: string): (r: string)
    ensures |r| == |s|
    ensures forall i :: 0 <= i < |s| ==> r[i] == LowerChar(s[i])
  {
    if s == [] then [] else [LowerChar(s[0])] + ToLower(s[1..])
  }


  /** `c` is the lower-case letter `lower` or its upper-case form. */
  predicate SameLetter(c: char, lower: char)
  {
    c == lower || c as int == lower as int - 32
  }

  /** Lower-casing `s` gives the all-lower-case word `t` exactly when each
      character of `s` is the matching letter of `t` in either case. */
  lemma LowersTo(s: string, t: string)
    requires forall i :: 0 <= i < |t| ==> 'a' <= t[i] <= 'z'
    ensures ToLower(s) == t <==>
              |s| == |t| && forall i :: 0 <= i < |s| ==> SameLetter(s[i], t[i])
  {
    var r := ToLower(s);
    if r == t {
      forall i | 0 <= i < |s| ensures SameLetter(s[i], t[i]) {
        assert r[i] == LowerChar(s[i]);
      }
    }
    if |s| == |t| && forall i :: 0 <= i < |s| ==> SameLetter(s[i], t[i]) {
      forall i | 0 <= i < |s| ensures r[i] == t[i] {
        assert SameLetter(s[i], t[i]) && 'a' <= t[i] <= 'z';
        assert r[i] == LowerChar(s[i]);
      }
      assert r == t;
    }
  }

  /** The password is accepted exactly when every character is the matching
      letter of "iloveyou" in either case. */
  lemma AcceptedSpellings(s: string)
    ensures ToLower(s) == CorrectPassword <==>
              |s| == |CorrectPassword| &&
              forall i :: 0 <= i < |s| ==> SameLetter(s[i], CorrectPassword[i])
  {
    PasswordIsLowerCase();
    LowersTo(s, CorrectPassword);
  }

  lemma PasswordIsLowerCase()
    ensures forall i :: 0 <= i < |CorrectPassword| ==> 'a' <= CorrectPassword[i] <= 'z'
  {
    var p := CorrectPassword;
    assert |p| == 8;
    assert 'a' <= p[0] <= 'z' && 'a' <= p[1] <= 'z' && 'a' <= p[2] <= 'z' && 'a' <= p[3] <= 'z';
    assert 'a' <= p[4] <= 'z' && 'a' <= p[5] <= 'z' && 'a' <= p[6] <= 'z' && 'a' <= p[7] <= 'z';
  }

  // ---------------------------------------------------------------------
  // The password form

  class MemoryRoom {
    var passwordInput: string
    var isAuthenticated: bool
    var showError: bool

    constructor ()
      ensures passwordInput == "" && !isAuthenticated && !showError
    {
      passwordInput := "";
      isAuthenticated := false;
      showError := false;
    }

    /** The input's `onChange`. */
    method TypePassword(value: string)
      modifies this
      ensures passwordInput == value
      ensures isAuthenticated == old(isAuthenticated) && showError == old(showError)
    {
      passwordInput := value;
    }

    /** `handlePasswordSubmit`: a correct password (in any letter case) unlocks
        the grid and hides the error; a wrong one shows the error and clears
        the input, leaving the lock as it was. */
    method Submit()
      modifies this
      ensures ToLower(old(passwordInput)) == CorrectPassword ==>
                isAuthenticated && !showError && passwordInput == old(passwordInput)
      ensures ToLower(old(passwordInput)) != CorrectPassword ==>
                showError && passwordInput == "" && isAuthenticated == old(isAuthenticated)
    {
      if ToLower(passwordInput) == CorrectPassword {
        isAuthenticated := true;
        showError := false;
      } else {
        showError := true;
        passwordInput := "";
      }
    }
  }

  // ---------------------------------------------------------------------
  // The memory grid

  /** `unlockedMemories.find(m => m.level === level)`: the first memory
      recorded for the level. */
  function FindMemory(memories: seq<Memory>, level: int): (r: Option<MemoryData>)
    ensures r.None? <==> !HasMemoryFor(memories, level)
    ensures r.Some? ==> exists i :: 0 <= i < |memories| && memories[i] == Memory(level, r.value) &&
                          forall j :: 0 <= j < i ==> memories[j].level != level
  {
    if memories == [] then None
    else if memories[0].level == level then Some(memories[0].data)
    else
      var r := FindMemory(memories[1..], level);
      assert forall i :: 0 <= i < |memories[1..]| ==> memories[1..][i] == memories[i + 1];
      r
  }

  /** The default card for a level: its win photo. */
  function DefaultMemory(level: int): MemoryData
  {
    MemoryData("Level " + NatToString(level) + " Memory", Photo,
               "/photos/level_" + NatToString(level) + "_win.jpeg")
  }

  /** Decimal digits of a non-negative number, as the template literal prints it. */
  function NatToString(n: int): (s: string)
    ensures |s| >= 1
    ensures 0 <= n < 10 ==> s == ["0123456789"[n]]
    decreases if n < 0 then 1 - n else n
  {
    if n < 0 then "-" + NatToString(-n)
    else if n < 10 then [['0','1','2','3','4','5','6','7','8','9'][n]]
    else NatToString(n / 10) + NatToString(n % 10)
  }

  /** The default cards are the five entries of the level table. */
  lemma DefaultsAreTheLevelTable()
    ensures DefaultMemory(1) == MemoryData("Level 1 Memory", Photo, "/photos/level_1_win.jpeg")
    ensures DefaultMemory(2) == MemoryData("Level 2 Memory", Photo, "/photos/level_2_win.jpeg")
    ensures DefaultMemory(3) == MemoryData("Level 3 Memory", Photo, "/photos/level_3_win.jpeg")
    ensures DefaultMemory(4) == MemoryData("Level 4 Memory", Photo, "/photos/level_4_win.jpeg")
    ensures DefaultMemory(5) == MemoryData("Level 5 Memory", Photo, "/photos/level_5_win.jpeg")
  {
  }

  datatype Card = Card(level: int, data: MemoryData)

  /** The cards of the grid, levels 1 to 5 in order. */
  function Cards(memories: seq<Memory>): (cards: seq<Card>)
    ensures |cards| == CardCount
    ensures forall i :: 0 <= i < CardCount ==> cards[i].level == i + 1
    ensures forall i :: 0 <= i < CardCount ==>
              cards[i].data == (if HasMemoryFor(memories, i + 1)
                                then FindMemory(memories, i + 1).value
                                else DefaultMemory(i + 1))
  {
    seq(CardCount, i requires 0 <= i < CardCount => CardFor(memories, i + 1))
  }

  /** `find(...) || levelData`. */
  function CardFor(memories: seq<Memory>, level: int): (c: Card)
    ensures c.level == level
    ensures HasMemoryFor(memories, level) ==> Memory(level, c.data) in memories
    ensures !HasMemoryFor(memories, level) ==> c.data == DefaultMemory(level)
    ensures HasMemoryFor(memories, level) ==>
              c.data == FindMemory(memories, level).value &&
              exists i :: 0 <= i < |memories| && memories[i] == Memory(level, c.data) &&
                forall j :: 0 <= j < i ==> memories[j].level != level
  {
    match FindMemory(memories, level)
    case Some(d) => Card(level, d)
    case None => Card(level, DefaultMemory(level))
  }

  /** The caption under a card: photos get a fixed caption, anything else its
      content, or a fallback naming the level when the content is empty. */
  function Preview(card: Card): (caption: string)
    ensures card.data.kind == Photo ==> caption == "\U{2764}\U{FE0F} Memory Photo"
    ensures card.data.kind != Photo && card.data.content != "" ==> caption == card.data.content
    ensures card.data.kind != Photo && card.data.content == "" ==>
              caption == "Memory from Level " + NatToString(card.level)
  {
    if card.data.kind == Photo then "\U{2764}\U{FE0F} Memory Photo"
    else if card.data.content != "" then card.data.content
    else "Memory from Level " + NatToString(card.level)
  }

  /** With one memory per level (as the app keeps it), a card shows exactly
      the memory unlocked for its level. */
  lemma CardShowsUnlockedMemory(memories: seq<Memory>, level: int, d: MemoryData)
    requires OneMemoryPerLevel(memories)
    requires Memory(level, d) in memories
    ensures CardFor(memories, level) == Card(level, d)
  {
    var k :| 0 <= k < |memories| && memories[k] == Memory(level, d);
    var c := CardFor(memories, level);
    var i :| 0 <= i < |memories| && memories[i] == Memory(level, c.data);
  }

  /** On a fresh game every card shows its default photo. */
  lemma FreshGameShowsDefaults()
    ensures forall i :: 0 <= i < CardCount ==>
              Cards(InitialState().unlockedMemories)[i].data == DefaultMemory(i + 1)
  {
  }
}
