/** The staff credential match of `loginCanteen` (lib/canteen-context.tsx, lines 408-423):
    the stored staff id, lower-cased, against the typed id lower-cased and trimmed; the stored
    password against the typed password trimmed. */
module Login {
  import opened CanteenTypes

  /** The ASCII white space `String.prototype.trim` removes: space, tab, line feed,
      vertical tab, form feed and carriage return. */
  predicate IsSpace(c: char) {
    c == ' ' || (9 <= c as int <= 13)
  }

  function LowerChar(c: char): char {
    if 'A' <= c <= 'Z' then (c as int + 32) as char else c
  }

  function UpperChar(c: char): char {
    if 'a' <= c <= 'z' then (c as int - 32) as char else c
  }

  /** `toLowerCase()` on ASCII letters. */
  function ToLower(s: string): (r: string)
    ensures |r| == |s|
  {
    seq(|s|, i requires 0 <= i < |s| => LowerChar(s[i]))
  }

  function ToUpper(s: string): (r: string)
    ensures |r| == |s|
  {
    seq(|s|, i requires 0 <= i < |s| => UpperChar(s[i]))
  }

  /** Drops leading white space: what is left is a suffix that starts with something else. */
  function TrimStart(s: string): (r: string)
    ensures |r| <= |s| && r == s[|s| - |r|..]
    ensures forall k :: 0 <= k < |s| - |r| ==> IsSpace(s[k])
    ensures r != [] ==> !IsSpace(r[0])
  {
    if s != [] && IsSpace(s[0]) then TrimStart(s[1..]) else s
  }

  /** Drops trailing white space: what is left is a prefix that ends with something else. */
  function TrimEnd(s: string): (r: string)
    ensures |r| <= |s| && r == s[..|r|]
    ensures forall k :: |r| <= k < |s| ==> IsSpace(s[k])
    ensures r != [] ==> !IsSpace(r[|r| - 1])
  {
    if s != [] && IsSpace(s[|s| - 1]) then TrimEnd(s[..|s| - 1]) else s
  }

  function Trim(s: string): string {
    TrimEnd(TrimStart(s))
  }

  predicate CredentialsMatch(c: Canteen, staffId: string, password: string) {
    ToLower(c.staffId) == Trim(ToLower(staffId)) && c.staffPassword == Trim(password)
  }

  /** `canteens.find(...)`: the first canteen whose credentials match. */
  function FindLogin(canteens: seq<Canteen>, staffId: string, password: string): (r: Option<Canteen>)
    ensures r.Some? ==> r.value in canteens && CredentialsMatch(r.value, staffId, password)
    ensures r.None? <==> forall k :: 0 <= k < |canteens| ==> !CredentialsMatch(canteens[k], staffId, password)
  {
    if canteens == [] then None
    else if CredentialsMatch(canteens[0], staffId, password) then Some(canteens[0])
    else FindLogin(canteens[1..], staffId, password)
  }

  lemma LowerOfUpper(s: string)
    ensures ToLower(ToUpper(s)) == ToLower(s)
  {
    forall i | 0 <= i < |s| ensures ToLower(ToUpper(s))[i] == ToLower(s)[i] {
      var c := s[i];
      if 'a' <= c <= 'z' {
        assert UpperChar(c) as int == c as int - 32;
      }
    }
  }

  /** The staff id is matched without regard to case. */
  lemma {:induction false} LoginIgnoresIdCase(canteens: seq<Canteen>, staffId: string, password: string)
    ensures FindLogin(canteens, ToUpper(staffId), password) == FindLogin(canteens, staffId, password)
    decreases |canteens|
  {
    LowerOfUpper(staffId);
    if canteens != [] {
      LoginIgnoresIdCase(canteens[1..], staffId, password);
    }
  }

  lemma {:induction false} TrimStartSnoc(s: string, c: char)
    ensures TrimStart(s + [c]) == if TrimStart(s) == [] then TrimStart([c]) else TrimStart(s) + [c]
    decreases |s|
  {
    if s != [] {
      assert (s + [c])[1..] == s[1..] + [c];
      if IsSpace(s[0]) {
        TrimStartSnoc(s[1..], c);
      }
    }
  }

  lemma TrimPadded(s: string)
    ensures Trim([' '] + s + [' ']) == Trim(s)
  {
    assert ([' '] + s + [' '])[1..] == s + [' '];
    TrimStartSnoc(s, ' ');
    var t := TrimStart(s);
    if t != [] {
      assert (t + [' '])[..|t|] == t;
    }
  }

  lemma LowerPadded(s: string)
    ensures ToLower([' '] + s + [' ']) == [' '] + ToLower(s) + [' ']
  {
  }

  /** White space typed around the staff id or the password does not matter. */
  lemma {:induction false} LoginIgnoresPadding(canteens: seq<Canteen>, staffId: string, password: string)
    ensures FindLogin(canteens, [' '] + staffId + [' '], [' '] + password + [' ']) == FindLogin(canteens, staffId, password)
    decreases |canteens|
  {
    LowerPadded(staffId);
    TrimPadded(ToLower(staffId));
    TrimPadded(password);
    if canteens != [] {
      LoginIgnoresPadding(canteens[1..], staffId, password);
    }
  }
}
