/**
 * The masthead's split of the owner's full name into a first name and the
 * rest: `name.split(' ')`, its first part, and the remaining parts joined
 * back with single spaces.
 */
module Masthead {

  /** JavaScript's `s.split(' ')`: the maximal space-free runs, empty ones included. */
  function Split(s: string): (parts: seq<string>)
    ensures |parts| >= 1
    ensures forall k :: 0 <= k < |parts| ==> ' ' !in parts[k]
    ensures ' ' !in s ==> parts == [s]
  {
    if s == [] then [""]
    else
      var rest := Split(s[1..]);
      assert s == [s[0]] + s[1..];
      if s[0] == ' ' then [""] + rest
      else [[s[0]] + rest[0]] + rest[1..]
  }

  /** JavaScript's `parts.join(sep)`: it starts with the first part, and one part joins to itself. */
  function Join(parts: seq<string>, sep: string): (s: string)
    ensures parts != [] ==> |parts[0]| <= |s| && s[..|parts[0]|] == parts[0]
    ensures |parts| == 1 ==> s == parts[0]
  {
    if parts == [] then ""
    else if |parts| == 1 then parts[0]
    else parts[0] + sep + Join(parts[1..], sep)
  }

  lemma {:induction false} JoinConsHead(c: char, parts: seq<string>)
    requires parts != []
    ensures Join([[c] + parts[0]] + parts[1..], " ") == [c] + Join(parts, " ")
  {
    var ps := [[c] + parts[0]] + parts[1..];
    assert ps[1..] == parts[1..];
  }

  /** Joining the parts of a split with the same separator gives back the name. */
  lemma {:induction false} SplitJoin(s: string)
    ensures Join(Split(s), " ") == s
  {
    if s != [] {
      var rest := Split(s[1..]);
      SplitJoin(s[1..]);
      if s[0] == ' ' {
        assert ([""] + rest)[1..] == rest;
      } else {
        JoinConsHead(s[0], rest);
      }
      assert s == [s[0]] + s[1..];
    }
  }

  /** `nameParts[0]`: a space-free prefix of the name, the whole name when it has no space. */
  function FirstName(name: string): (first: string)
    ensures ' ' !in first
    ensures |first| <= |name| && name[..|first|] == first
    ensures ' ' !in name ==> first == name
  {
    SplitJoin(name);
    Split(name)[0]
  }

  /** `nameParts.slice(1).join(' ')`: empty when the name has no space. */
  function LastName(name: string): (last: string)
    ensures ' ' !in name ==> last == ""
  {
    Join(Split(name)[1..], " ")
  }

  /**
   * The first name holds no space and is a prefix of the name; when the name
   * contains a space, first name, one space and last name give back the name;
   * otherwise the last name is empty.
   */
  lemma NameParts(name: string)
    ensures ' ' !in FirstName(name)
    ensures ' ' in name ==> FirstName(name) + " " + LastName(name) == name
    ensures ' ' !in name ==> FirstName(name) == name && LastName(name) == ""
  {
    var parts := Split(name);
    SplitJoin(name);
  }
}
