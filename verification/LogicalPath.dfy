/** Logical references: an alias of a bound root followed by path components, which may be glob patterns. */
module LogicalPath {
  import opened Wrappers

  function Split(s: string): (parts: seq<string>)
    ensures |parts| > 0
  {
    if s == [] then [[]]
    else
      var rest := Split(s[1..]);
      if s[0] == '/' then [[]] + rest else [[s[0]] + rest[0]] + rest[1..]
  }

  function Join(parts: seq<string>): string {
    if parts == [] then []
    else if |parts| == 1 then parts[0]
    else parts[0] + "/" + Join(parts[1..])
  }

  predicate Contains(s: string, needle: string) {
    |needle| <= |s| && (s[..|needle|] == needle || (s != [] && Contains(s[1..], needle)))
  }

  predicate EndsWith(s: string, tail: string) {
    |tail| <= |s| && s[|s| - |tail|..] == tail
  }

  predicate IsControl(c: char) {
    c as int < 32 || c as int == 127
  }

  predicate IsGlobChar(c: char) {
    c == '*' || c == '?' || c == '[' || c == ']'
  }

  predicate IsDots(part: string) {
    part == "" || part == "." || part == ".."
  }

  datatype Reference = Reference(alias: string, parts: seq<string>)

  /** The alias and components of a reference; `None` when it is unsafe. */
  function LogicalParts(value: string, glob: bool): Option<Reference> {
    var parts := Split(value);
    if || |value| > 4096
       || |parts| < 2
       || (parts[0] != "__HIST__" && parts[0] != "__DC__")
       || (exists i :: 1 <= i < |parts| && IsDots(parts[i]))
       || (exists i :: 0 <= i < |value| && IsControl(value[i]))
       || '\\' in value
       || Contains(value, "://")
       || Contains(value, "**")
       || !EndsWith(value, ".parquet")
       || (!glob && exists i :: 0 <= i < |value| && IsGlobChar(value[i]))
    then None
    else Some(Reference(parts[0], parts[1..]))
  }

  lemma {:induction false} SplitPlain(s: string)
    requires '/' !in s
    ensures Split(s) == [s]
  {
    if s != [] {
      SplitPlain(s[1..]);
      assert [s[0]] + s[1..] == s;
    }
  }

  lemma {:induction false} SplitFirst(s: string, rest: string)
    requires '/' !in s
    ensures Split(s + "/" + rest) == [s] + Split(rest)
  {
    if s == [] {
      assert (s + "/" + rest)[1..] == rest;
    } else {
      SplitFirst(s[1..], rest);
      assert (s + "/" + rest)[1..] == s[1..] + "/" + rest;
      assert [s[0]] + s[1..] == s;
      assert ([s[1..]] + Split(rest))[1..] == Split(rest);
    }
  }

  /** Splitting undoes joining for components without a separator. */
  lemma {:induction false} SplitJoin(parts: seq<string>)
    requires parts != [] && forall i :: 0 <= i < |parts| ==> '/' !in parts[i]
    ensures Split(Join(parts)) == parts
  {
    if |parts| == 1 {
      SplitPlain(parts[0]);
    } else {
      SplitJoin(parts[1..]);
      SplitFirst(parts[0], Join(parts[1..]));
      assert [parts[0]] + parts[1..] == parts;
    }
  }

  /** Joining undoes splitting, and the components have no separator. */
  lemma {:induction false} JoinSplit(s: string)
    ensures Join(Split(s)) == s
    ensures forall i :: 0 <= i < |Split(s)| ==> '/' !in Split(s)[i]
  {
    if s != [] {
      JoinSplit(s[1..]);
      var rest := Split(s[1..]);
      if s[0] == '/' {
        assert ([[]] + rest)[1..] == rest;
        assert Join([[]] + rest) == [] + "/" + Join(rest);
      } else {
        var whole := [[s[0]] + rest[0]] + rest[1..];
        if |rest| > 1 {
          assert whole[1..] == rest[1..];
        }
        assert Join(whole) == [s[0]] + Join(rest);
      }
    }
  }
}
