/** Keyboard shortcuts: three listeners, registered for "k" (previous), "j"
    (next) and "n,f" (show or hide the answer). A listener fires when the
    lower-cased key of the event is found inside its key string. */
module Hotkeys {

  const PreviousKeys: string := "k"
  const NextKeys: string := "j"
  const AnswerKeys: string := "n,f"

  datatype Action = Previous | Next | ToggleAnswer

  /** The lower case of one character, for ASCII letters and for U+212A
      KELVIN SIGN, whose lower case is "k". */
  function LowerChar(ch: char): char {
    if 'A' <= ch <= 'Z' then (ch as int - 'A' as int + 'a' as int) as char
    else if ch == '\U{212A}' then 'k'
    else ch
  }

  /** `key.toLowerCase()`, for ASCII letters and the Kelvin sign. */
  function ToLower(s: string): (r: string)
    ensures |r| == |s|
  {
    seq(|s|, i requires 0 <= i < |s| => LowerChar(s[i]))
  }

  /** The Kelvin sign lower-cases to "k", so it reaches the "previous"
      listener. */
  lemma KelvinSignLowersToK()
    ensures ToLower("\U{212A}") == "k"
  {
  }

  /** `allowed.includes(key)` where `allowed` is a string: a substring test. */
  predicate Includes(allowed: string, key: string)
    decreases |allowed|
  {
    (|key| <= |allowed| && allowed[..|key|] == key)
    || (allowed != [] && Includes(allowed[1..], key))
  }

  /** `key` occurs in `allowed` starting at position `i`. */
  predicate OccursAt(allowed: string, key: string, i: int) {
    0 <= i && i + |key| <= |allowed| && allowed[i..i + |key|] == key
  }

  /** Includes agrees with "key occurs at some position of allowed". */
  lemma {:induction false} IncludesAt(allowed: string, key: string)
    ensures Includes(allowed, key) <==> exists i :: OccursAt(allowed, key, i)
  {
    if allowed == [] {
      if key == [] {
        assert OccursAt(allowed, key, 0);
      }
    } else {
      IncludesAt(allowed[1..], key);
      if |key| <= |allowed| && allowed[..|key|] == key {
        assert OccursAt(allowed, key, 0);
      }
      if Includes(allowed[1..], key) {
        var i :| OccursAt(allowed[1..], key, i);
        assert allowed[i + 1..i + 1 + |key|] == allowed[1..][i..i + |key|];
        assert OccursAt(allowed, key, i + 1);
      }
      if exists i :: OccursAt(allowed, key, i) {
        var i :| OccursAt(allowed, key, i);
        if i > 0 {
          assert allowed[1..][i - 1..i - 1 + |key|] == allowed[i..i + |key|];
          assert OccursAt(allowed[1..], key, i - 1);
        } else {
          assert allowed[..|key|] == allowed[i..i + |key|];
        }
      }
    }
  }

  /** The listeners that fire for a (lower-cased) key, in registration order. */
  function Listeners(key: string): seq<Action> {
    (if Includes(PreviousKeys, key) then [Previous] else [])
    + (if Includes(NextKeys, key) then [Next] else [])
    + (if Includes(AnswerKeys, key) then [ToggleAnswer] else [])
  }

  /** The single-key listeners fire for exactly their own key. */
  lemma SingleKeyIncludes(c: char, key: string)
    requires key != ""
    ensures Includes([c], key) <==> key == [c]
  {
    assert [c][1..] == [];
  }

  /** The answer listener fires for exactly six non-empty keys, among them
      the comma. */
  lemma AnswerKeysIncludes(key: string)
    requires key != ""
    ensures Includes(AnswerKeys, key)
        <==> key in {"n", ",", "f", "n,", ",f", "n,f"}
  {
    assert AnswerKeys[1..] == ",f";
    assert ",f"[1..] == "f";
    assert "f"[1..] == "";
    if |key| == 1 {
      assert AnswerKeys[..1] == "n";
      assert ",f"[..1] == ",";
      assert "f"[..1] == "f";
    } else if |key| == 2 {
      assert AnswerKeys[..2] == "n,";
      assert ",f"[..2] == ",f";
    } else if |key| == 3 {
      assert AnswerKeys[..3] == "n,f";
    }
  }

  /** No key press (its key is never empty) fires more than one listener. */
  lemma AtMostOneListener(key: string)
    requires key != ""
    ensures |Listeners(key)| <= 1
  {
    SingleKeyIncludes('k', key);
    SingleKeyIncludes('j', key);
    AnswerKeysIncludes(key);
  }

  /** `allowed.split(",")`: the comma-separated names in a key string. */
  function Split(s: string): (r: seq<string>)
    ensures |r| >= 1
  {
    if s == [] then [""]
    else
      var rest := Split(s[1..]);
      if s[0] == ',' then [""] + rest else [[s[0]] + rest[0]] + rest[1..]
  }

  /** A key string of one character other than "," names just that key. */
  lemma SplitSingle(c: char)
    requires c != ','
    ensures Split([c]) == [[c]]
  {
    assert [c][1..] == "";
    assert Split("") == [""];
    assert [c] + "" == [c];
  }

  /** A listener that reads its key string as a list of names. */
  predicate MatchesName(allowed: string, key: string) {
    key in Split(allowed)
  }

  /** The key string "n,f" names the keys "n" and "f" and nothing else. */
  lemma AnswerKeysNames()
    ensures Split(AnswerKeys) == ["n", "f"]
  {
    SplitSingle('f');
    assert Split(",f") == ["", "f"] by {
      assert ",f"[1..] == "f";
      assert ",f"[0] == ',';
    }
    assert AnswerKeys[0] == 'n';
    assert ['n'] + "" == "n";
    assert AnswerKeys[1..] == ",f";
  }

  /** Read as a list of names, "n,f" matches exactly "n" and "f". */
  lemma MatchesNameAnswerKeys(key: string)
    ensures MatchesName(AnswerKeys, key) <==> key == "n" || key == "f"
  {
    AnswerKeysNames();
  }

  /** A comma fires the answer listener as written, and would not if the key
      string were read as a list of names. */
  lemma CommaTogglesAnswer()
    ensures Includes(AnswerKeys, ",")
    ensures !MatchesName(AnswerKeys, ",")
  {
    AnswerKeysIncludes(",");
    MatchesNameAnswerKeys(",");
  }
}
