/** Names compared without regard to case or padding; letters and white space are those of ASCII. */
module Names {
  function LowerChar(c: char): char {
    if 'A' <= c <= 'Z' then (c as int - 'A' as int + 'a' as int) as char else c
  }

  function Lower(name: string): (r: string)
    ensures |r| == |name|
    ensures forall i :: 0 <= i < |r| ==> r[i] as int == name[i] as int + if 'A' <= name[i] <= 'Z' then 32 else 0
  {
    if name == "" then "" else [LowerChar(name[0])] + Lower(name[1..])
  }

  predicate IsSpace(c: char)
    ensures IsSpace(c) <==> c as int in {9, 10, 11, 12, 13, 28, 29, 30, 31, 32}
  {
    c == ' ' || '\t' <= c <= '\r' || '\U{1c}' <= c <= '\U{1f}'
  }

  /** Without the white space at both ends. */
  function Strip(name: string): string {
    if name == "" then ""
    else if IsSpace(name[0]) then Strip(name[1..])
    else if IsSpace(name[|name| - 1]) then Strip(name[..|name| - 1])
    else name
  }

  function LowerAll(names: set<string>): set<string> {
    set name | name in names :: Lower(name)
  }

  function StripAll(names: set<string>): set<string> {
    set name | name in names :: Strip(name)
  }

  lemma IsItsOwnLower(name: string)
    requires forall i :: 0 <= i < |name| ==> !('A' <= name[i] <= 'Z')
    ensures Lower(name) == name
  {
  }

  lemma StripsPadding(space: char, name: string)
    requires IsSpace(space) && name != "" && !IsSpace(name[0]) && !IsSpace(name[|name| - 1])
    ensures Strip([space] + name) == name
  {
    assert ([space] + name)[1..] == name;
  }

  /** What is left has no white space at either end, and only white space was taken. */
  lemma {:induction false} StripTakesOnlySpace(name: string) returns (lead: nat, trail: nat)
    ensures lead + trail <= |name| && Strip(name) == name[lead..|name| - trail]
    ensures forall i :: 0 <= i < lead || |name| - trail <= i < |name| ==> IsSpace(name[i])
    ensures Strip(name) != "" ==> !IsSpace(Strip(name)[0]) && !IsSpace(Strip(name)[|Strip(name)| - 1])
  {
    lead, trail := 0, 0;
    if name != "" && IsSpace(name[0]) {
      var rest := name[1..];
      assert Strip(name) == Strip(rest);
      hide Strip, IsSpace;
      lead, trail := StripTakesOnlySpace(rest);
      assert rest[lead..|rest| - trail] == name[lead + 1..|name| - trail];
      forall i | 1 <= i < lead + 1 || |name| - trail <= i < |name| ensures IsSpace(name[i]) {
        assert name[i] == rest[i - 1];
      }
      lead := lead + 1;
    } else if name != "" && IsSpace(name[|name| - 1]) {
      var rest := name[..|name| - 1];
      assert Strip(name) == Strip(rest);
      hide Strip, IsSpace;
      lead, trail := StripTakesOnlySpace(rest);
      forall i | 0 <= i < lead || |rest| - trail <= i < |rest| ensures IsSpace(name[i]) {
        assert name[i] == rest[i];
      }
      trail := trail + 1;
    }
  }
}
