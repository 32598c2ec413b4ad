/** JSON documents as `json.loads` returns them, with the two dictionary
    operations the scanner applies to them: `get` and `keys`. Parsing is
    not modelled; callers receive the parsed document, or `None` where
    `json.loads` raises. */
module Json {
  import opened Wrappers
  import opened Seqs

  /** A parsed document. An object keeps its members in text order,
      duplicates included; `Get` and `Keys` give them dictionary meaning. */
  datatype Json =
    | Null
    | Bool(b: bool)
    | Num(literal: string)
    | Str(s: string)
    | Array(items: seq<Json>)
    | Object(members: seq<(string, Json)>)

  /** `d.get(key)`: the value of the last member named `key`, which is the
      one `json.loads` keeps. */
  function Get(members: seq<(string, Json)>, key: string): Option<Json>
  {
    if members == [] then None
    else if members[|members| - 1].0 == key then Some(members[|members| - 1].1)
    else Get(members[..|members| - 1], key)
  }

  /** `Get` finds a key exactly when some member has that name, and then
      returns the value of the last such member. */
  lemma {:induction false} GetIsLastBinding(members: seq<(string, Json)>, key: string)
    ensures Get(members, key).None? <==> forall i :: 0 <= i < |members| ==> members[i].0 != key
    ensures Get(members, key).Some? ==>
              exists i :: 0 <= i < |members| && members[i] == (key, Get(members, key).value) &&
                forall j :: i < j < |members| ==> members[j].0 != key
  {
    if members != [] && members[|members| - 1].0 != key {
      var p := members[..|members| - 1];
      GetIsLastBinding(p, key);
      assert forall i :: 0 <= i < |p| ==> p[i] == members[i];
    }
  }

  /** The member names in text order, repeats included. */
  function Names(members: seq<(string, Json)>): (r: seq<string>)
    ensures |r| == |members|
    ensures forall i :: 0 <= i < |members| ==> r[i] == members[i].0
  {
    seq(|members|, i requires 0 <= i < |members| => members[i].0)
  }

  /** `d.keys()`: every member name once, at its first position. */
  function Keys(members: seq<(string, Json)>): (r: seq<string>)
    ensures NoDuplicates(r)
    ensures forall k :: k in r <==> exists i :: 0 <= i < |members| && members[i].0 == k
  {
    var names := Names(members);
    assert forall k :: k in names <==> exists i :: 0 <= i < |members| && members[i].0 == k;
    Dedup(names)
  }

  /** Section `s` is present but is not an object, so `.keys()` on it raises. */
  predicate BadSection(members: seq<(string, Json)>, s: string) {
    var v := Get(members, s);
    v.Some? && !v.value.Object?
  }

  /** The keys of an object-valued section; an absent section counts as `{}`. */
  function SectionKeys(members: seq<(string, Json)>, s: string): seq<string> {
    match Get(members, s)
    case Some(Object(ms)) => Keys(ms)
    case _ => []
  }

  /** No section raises: each is absent or an object. */
  predicate WellShaped(members: seq<(string, Json)>, sections: seq<string>) {
    forall i :: 0 <= i < |sections| ==> !BadSection(members, sections[i])
  }

  /** The keys of the sections, one section after another. */
  function Collect(members: seq<(string, Json)>, sections: seq<string>): seq<string> {
    Flatten(seq(|sections|, i requires 0 <= i < |sections| => SectionKeys(members, sections[i])))
  }

  /** A name is collected exactly when it is a key of one of the sections. */
  lemma CollectedNames(members: seq<(string, Json)>, sections: seq<string>, name: string)
    ensures name in Collect(members, sections) <==>
              exists i :: 0 <= i < |sections| && name in SectionKeys(members, sections[i])
  {
    var parts := seq(|sections|, i requires 0 <= i < |sections| => SectionKeys(members, sections[i]));
    FlattenMembers(parts, name);
    assert forall i :: 0 <= i < |sections| ==> parts[i] == SectionKeys(members, sections[i]);
  }
}
