/** Splitting a person's full name into last, first and middle name. */
module Names {
  import opened Text

  datatype FullName = FullName(last: string, first: string, middle: string)

  /** The `k`-th element of `parts`, or "" when there are not that many. */
  function WordAt(parts: seq<string>, k: nat): string {
    if k < |parts| then parts[k] else ""
  }

  /** `utils.ParseFullName`: collapse white space, split on single spaces, take the first three pieces. */
  function ParseFullName(fullname: string): FullName {
    var parts := Split(Join(Fields(TrimSpace(fullname)), " "), ' ');
    FullName(
      if |parts| > 0 then parts[0] else "",
      if |parts| > 1 then parts[1] else "",
      if |parts| > 2 then parts[2] else "")
  }

  /** Collapsing and re-splitting gives exactly the white-space separated words. */
  lemma {:induction false} SplitJoinFields(s: string)
    ensures Fields(s) != [] ==> Split(Join(Fields(TrimSpace(s)), " "), ' ') == Fields(s)
    ensures Fields(s) == [] ==> Split(Join(Fields(TrimSpace(s)), " "), ' ') == [""]
  {
    FieldsTrimSpace(s);
    var ws := Fields(s);
    if ws != [] {
      SplitJoin(ws, ' ');
    }
  }

  /** The three names are the first three words of the input, "" where a word is missing;
      later words are dropped. */
  lemma ParseFullNameWords(fullname: string)
    ensures ParseFullName(fullname) ==
      FullName(WordAt(Fields(fullname), 0), WordAt(Fields(fullname), 1), WordAt(Fields(fullname), 2))
  {
    SplitJoinFields(fullname);
  }

  /** A blank full name gives three empty names. */
  lemma ParseFullNameBlank(fullname: string)
    requires IsBlank(fullname)
    ensures ParseFullName(fullname) == FullName("", "", "")
  {
    TrimSpaceEmpty(fullname);
    assert TrimSpace(fullname) == "";
    assert Fields(TrimSpace(fullname)) == [];
  }

  /** No word of the result contains white space, and a present later name implies the earlier ones. */
  lemma ParseFullNameShape(fullname: string)
    ensures var n := ParseFullName(fullname);
      (n.first != "" ==> n.last != "") && (n.middle != "" ==> n.first != "")
      && (forall i :: 0 <= i < |n.last| ==> !IsSpace(n.last[i]))
      && (forall i :: 0 <= i < |n.first| ==> !IsSpace(n.first[i]))
      && (forall i :: 0 <= i < |n.middle| ==> !IsSpace(n.middle[i]))
  {
    ParseFullNameWords(fullname);
  }
}
