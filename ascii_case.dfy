/** Python's `str.lower`, `str.upper` and `str.capitalize` on ASCII letters,
    as the dashboard uses them to try the spellings of a player's name. */
module AsciiCase {

  function LowerChar(c: char): (r: char)
    ensures 'A' <= c <= 'Z' ==> 'a' <= r <= 'z' && r as int - c as int == 32
    ensures !('A' <= c <= 'Z') ==> r == c
  {
    if 'A' <= c <= 'Z' then (c as int + 32) as char else c
  }

  function UpperChar(c: char): (r: char)
    ensures 'a' <= c <= 'z' ==> 'A' <= r <= 'Z' && c as int - r as int == 32
    ensures !('a' <= c <= 'z') ==> r == c
  {
    if 'a' <= c <= 'z' then (c as int - 32) as char else c
  }

  function Lower(s: string): (r: string)
    ensures |r| == |s| && forall i | 0 <= i < |s| :: r[i] == LowerChar(s[i])
  {
    seq(|s|, i requires 0 <= i < |s| => LowerChar(s[i]))
  }

  function Upper(s: string): (r: string)
    ensures |r| == |s| && forall i | 0 <= i < |s| :: r[i] == UpperChar(s[i])
  {
    seq(|s|, i requires 0 <= i < |s| => UpperChar(s[i]))
  }

  /** The first character in upper case, the rest in lower case. */
  function Capitalize(s: string): (r: string)
    ensures |r| == |s|
    ensures s != [] ==> r[0] == UpperChar(s[0]) && r[1..] == Lower(s[1..])
  {
    if s == [] then [] else [UpperChar(s[0])] + Lower(s[1..])
  }

  /** `{username, username.lower(), username.capitalize(), username.upper()}`. */
  function Variations(u: string): (v: set<string>)
    ensures u in v && 1 <= |v| <= 4
  {
    {u, Lower(u), Capitalize(u), Upper(u)}
  }

  lemma LowerCharOfCase(c: char)
    ensures LowerChar(LowerChar(c)) == LowerChar(c)
    ensures LowerChar(UpperChar(c)) == LowerChar(c)
  {
  }

  /** Every spelling tried is the given name up to the case of its letters:
      all of them have the same lower-case form. */
  lemma VariationsAgreeIgnoringCase(u: string)
    ensures forall v | v in Variations(u) :: |v| == |u| && Lower(v) == Lower(u)
  {
    forall i | 0 <= i < |u| {
      LowerCharOfCase(u[i]);
    }
    assert Lower(Lower(u)) == Lower(u);
    assert Lower(Upper(u)) == Lower(u);
    if u != [] {
      var c := Capitalize(u);
      forall i | 0 <= i < |u| ensures Lower(c)[i] == Lower(u)[i] {
        if i > 0 {
          assert c[i] == c[1..][i - 1] == Lower(u[1..])[i - 1];
        }
      }
    }
  }

  /** `capitalize` lowers every letter after the first. */
  lemma CapitalizeExample()
    ensures Capitalize("tANQUE") == "Tanque"
  {
    var rest := Lower("ANQUE");
    assert rest[0] == 'a' && rest[1] == 'n' && rest[2] == 'q' && rest[3] == 'u' && rest[4] == 'e';
    assert rest == "anque";
    assert "tANQUE"[1..] == "ANQUE";
  }

  /** A lower-case name yields three spellings, the name itself being the
      lower-case one. */
  lemma VariationsExample()
    ensures Variations("ana") == {"ana", "Ana", "ANA"}
  {
    assert Lower("ana") == "ana";
    assert Capitalize("ana") == ['A'] + Lower("na");
    assert Lower("na") == "na";
    assert Capitalize("ana") == "Ana";
    assert Upper("ana") == "ANA";
  }
}
