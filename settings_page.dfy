/** The settings page's display formatting of profile values and its logout. */
module Settings {
  import opened Types
  import opened BrowserStorage
  import Auth

  const NOT_SET := "Not set"
  const LOGIN_ROUTE := "/login"

  /** `toUpperCase` of one character, for ASCII text. */
  function Upper(c: char): (u: char)
    ensures u == '_' <==> c == '_'
  {
    if 'a' <= c <= 'z' then (c as int - 32) as char else c
  }

  /** `s.split(sep)`: the pieces between separators, empty ones included. */
  function Split(s: string, sep: char): (parts: seq<string>)
    ensures |parts| >= 1
    decreases |s|
  {
    if s == [] then [""]
    else
      var rest := Split(s[1..], sep);
      if s[0] == sep then [""] + rest
      else [[s[0]] + rest[0]] + rest[1..]
  }

  /** `parts.join(sep)`. */
  function Join(parts: seq<string>, sep: char): string
    decreases |parts|
  {
    if parts == [] then ""
    else if |parts| == 1 then parts[0]
    else parts[0] + [sep] + Join(parts[1..], sep)
  }

  /** `word.charAt(0).toUpperCase() + word.slice(1)`. */
  function Capitalize(word: string): string
  {
    if word == [] then [] else [Upper(word[0])] + word[1..]
  }

  /** `words.map(Capitalize)`. */
  function CapitalizeAll(words: seq<string>): (r: seq<string>)
    ensures |r| == |words|
    decreases |words|
  {
    if words == [] then [] else [Capitalize(words[0])] + CapitalizeAll(words[1..])
  }

  /** `formatValue(val)`: 'Not set' for a missing or empty value, otherwise
      the snake_case words with each word's first character upper-cased,
      joined by spaces. */
  function FormatValue(val: Option<string>): (r: string)
    ensures val.None? || val.value == "" ==> r == NOT_SET
    ensures val.Some? && val.value != "" ==> r == Scan(val.value, true)
  {
    if val.None? || val.value == "" then NOT_SET
    else
      SplitJoinIsScan(val.value);
      Join(CapitalizeAll(Split(val.value, '_')), ' ')
  }

  /** What `formatValue` does to the character at index i of a non-empty value:
      '_' becomes a space, a character that starts a word (the first one, or
      one right after '_') is upper-cased, every other is kept. */
  function FormattedChar(s: string, i: int): char
    requires 0 <= i < |s|
  {
    if s[i] == '_' then ' '
    else if i == 0 || s[i - 1] == '_' then Upper(s[i])
    else s[i]
  }

  /** The same transformation as one left-to-right scan; `atStart` says
      whether the first character of `s` starts a word. */
  function Scan(s: string, atStart: bool): (r: string)
    ensures |r| == |s|
    decreases |s|
  {
    if s == [] then []
    else if s[0] == '_' then [' '] + Scan(s[1..], true)
    else [if atStart then Upper(s[0]) else s[0]] + Scan(s[1..], false)
  }

  lemma JoinCons(x: string, ys: seq<string>, sep: char)
    ensures Join([x] + ys, sep) == if ys == [] then x else x + [sep] + Join(ys, sep)
  {
    assert ([x] + ys)[1..] == ys;
  }

  /** The scan equals split, capitalise and join: the second form is for a
      first word that is not capitalised. */
  ghost predicate ScanMatchesSplit(s: string)
  {
    && Scan(s, true) == Join(CapitalizeAll(Split(s, '_')), ' ')
    && Scan(s, false) == Join([Split(s, '_')[0]] + CapitalizeAll(Split(s, '_')[1..]), ' ')
  }

  /** The inductive step for a leading '_': an empty first word. */
  lemma UnderscoreStep(s: string)
    requires s != [] && s[0] == '_' && ScanMatchesSplit(s[1..])
    ensures ScanMatchesSplit(s)
  {
    var rest := Split(s[1..], '_');
    assert Split(s, '_') == [""] + rest;
    assert CapitalizeAll([""] + rest) == [""] + CapitalizeAll(rest);
    assert ([""] + rest)[1..] == rest;
    JoinCons("", CapitalizeAll(rest), ' ');
  }

  /** The inductive step for a leading word character: it joins the first word. */
  lemma WordCharStep(s: string)
    requires s != [] && s[0] != '_' && ScanMatchesSplit(s[1..])
    ensures ScanMatchesSplit(s)
  {
    var c, rest := s[0], Split(s[1..], '_');
    var parts := [[c] + rest[0]] + rest[1..];
    assert Split(s, '_') == parts;
    assert parts[1..] == rest[1..];
    assert CapitalizeAll(parts) == [[Upper(c)] + rest[0]] + CapitalizeAll(rest[1..]);
    JoinCons([c] + rest[0], CapitalizeAll(rest[1..]), ' ');
    JoinCons([Upper(c)] + rest[0], CapitalizeAll(rest[1..]), ' ');
    JoinCons(rest[0], CapitalizeAll(rest[1..]), ' ');
    assert rest == [rest[0]] + rest[1..];
  }

  /** Splitting, capitalising and joining is the scan. */
  lemma {:induction false} SplitJoinIsScan(s: string)
    ensures Scan(s, true) == Join(CapitalizeAll(Split(s, '_')), ' ')
    ensures Scan(s, false) == Join([Split(s, '_')[0]] + CapitalizeAll(Split(s, '_')[1..]), ' ')
    decreases |s|
  {
    if s != [] {
      SplitJoinIsScan(s[1..]);
      if s[0] == '_' {
        UnderscoreStep(s);
      } else {
        WordCharStep(s);
      }
    }
  }

  /** The character the scan produces at index i. */
  function ScanChar(s: string, atStart: bool, i: int): char
    requires 0 <= i < |s|
  {
    if s[i] == '_' then ' '
    else if (if i == 0 then atStart else s[i - 1] == '_') then Upper(s[i])
    else s[i]
  }

  /** The scan, character by character. */
  lemma {:induction false} ScanChars(s: string, atStart: bool)
    ensures forall i :: 0 <= i < |s| ==> Scan(s, atStart)[i] == ScanChar(s, atStart, i)
    decreases |s|
  {
    if s != [] {
      var next := s[0] == '_';
      var r, t := Scan(s, atStart), s[1..];
      ScanChars(t, next);
      assert r == [r[0]] + Scan(t, next);
      assert r[0] == ScanChar(s, atStart, 0);
      forall i | 1 <= i < |s| ensures r[i] == ScanChar(s, atStart, i) {
        assert r[i] == Scan(t, next)[i - 1] == ScanChar(t, next, i - 1);
        assert t[i - 1] == s[i];
        if i > 1 {
          assert t[i - 2] == s[i - 1];
        }
      }
    }
  }

  /** A non-empty value keeps its length, and each character is formatted on its own. */
  lemma FormatValueChars(v: string)
    requires v != ""
    ensures |FormatValue(Some(v))| == |v|
    ensures forall i :: 0 <= i < |v| ==> FormatValue(Some(v))[i] == FormattedChar(v, i)
  {
    SplitJoinIsScan(v);
    ScanChars(v, true);
    assert FormatValue(Some(v)) == Scan(v, true);
    forall i | 0 <= i < |v| ensures Scan(v, true)[i] == FormattedChar(v, i) {
      assert Scan(v, true)[i] == ScanChar(v, true, i);
    }
  }

  /** No '_' survives formatting. */
  lemma FormatValueHasNoUnderscore(val: Option<string>)
    ensures '_' !in FormatValue(val)
  {
    if val.Some? && val.value != "" {
      var r := FormatValue(val);
      FormatValueChars(val.value);
      forall i | 0 <= i < |r| ensures r[i] != '_' {
        assert r[i] == FormattedChar(val.value, i);
      }
    }
  }

  /** A value without '_' comes back with only its first character upper-cased. */
  lemma FormatSingleWord(v: string)
    requires v != "" && '_' !in v
    ensures FormatValue(Some(v)) == [Upper(v[0])] + v[1..]
  {
    FormatValueChars(v);
  }

  /** Empty words are kept: each extra '_' becomes an extra space. */
  lemma EmptyWordsBecomeSpaces()
    ensures FormatValue(Some("a__b")) == "A  B"
  {
    FormatValueChars("a__b");
  }

  /** `handleLogout`: removes the token and the user id, keeps every other key, and goes to the login page. */
  method HandleLogout(storage: LocalStorage) returns (route: string)
    modifies storage
    ensures storage.items == Auth.ClearedSession(old(storage.items))
    ensures route == LOGIN_ROUTE
  {
    storage.RemoveItem(ACCESS_TOKEN);
    storage.RemoveItem(USER_ID);
    assert storage.items == old(storage.items) - {ACCESS_TOKEN, USER_ID};
    route := LOGIN_ROUTE;
  }
}
