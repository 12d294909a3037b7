/**
 * The booking lifecycle vocabulary shared by the seed loader and the views:
 * the three status values, the strings the store holds for them, the tag
 * colour each is shown with, and the label shown on the tag.
 */
module BookingStatus {
  import opened Wrappers

  datatype Status = Unconfirmed | CheckedIn | CheckedOut

  /** The string the store and the views use for a status. */
  function Name(s: Status): string {
    match s
    case Unconfirmed => "unconfirmed"
    case CheckedIn => "checked-in"
    case CheckedOut => "checked-out"
  }

  /** The status a stored string stands for, if any. */
  function Parse(name: string): (r: Option<Status>)
    ensures r.Some? ==> Name(r.value) == name
    ensures r.None? ==> forall s: Status :: Name(s) != name
  {
    if name == "unconfirmed" then Some(Unconfirmed)
    else if name == "checked-in" then Some(CheckedIn)
    else if name == "checked-out" then Some(CheckedOut)
    else None
  }

  /** Distinct statuses are stored under distinct strings, and parsing a stored name gives the status back. */
  lemma ParseName(s: Status, t: Status)
    ensures Parse(Name(s)) == Some(s)
    ensures Name(s) == Name(t) ==> s == t
  {
    assert Name(s) == Name(t) ==> Parse(Name(s)) == Parse(Name(t));
  }

  datatype TagColour = Blue | Green | Silver

  /** The `statusToTagName` lookup table of the row and detail views. */
  const TagNames: map<string, TagColour> :=
    map["unconfirmed" := Blue, "checked-in" := Green, "checked-out" := Silver]

  /** The tag colour for a stored status string; None for a string outside the table (a lookup that yields undefined). */
  function TagColourOf(status: string): (c: Option<TagColour>)
    ensures c.Some? <==> Parse(status).Some?
    ensures status == Name(Unconfirmed) ==> c == Some(Blue)
    ensures status == Name(CheckedIn) ==> c == Some(Green)
    ensures status == Name(CheckedOut) ==> c == Some(Silver)
  {
    if status in TagNames then Some(TagNames[status]) else None
  }

  /** Each status gets its own colour, so the colour alone tells the status apart. */
  lemma TagColoursDistinct(s: Status, t: Status)
    ensures TagColourOf(Name(s)).Some?
    ensures TagColourOf(Name(s)) == TagColourOf(Name(t)) ==> s == t
  {
  }

  /** A status tag as shown: its colour and its text. */
  datatype Tag = Tag(colour: Option<TagColour>, text: string)

  /** The tag a view shows for a stored status string. */
  function StatusTag(status: string): Tag {
    Tag(TagColourOf(status), Label(status))
  }

  /** Position of the first `c` in `s`, or |s| when there is none. */
  function IndexOf(s: string, c: char): (k: nat)
    ensures k <= |s|
    ensures k < |s| ==> s[k] == c
    ensures forall i :: 0 <= i < k ==> s[i] != c
  {
    if s == [] then 0
    else if s[0] == c then 0
    else 1 + IndexOf(s[1..], c)
  }

  /** JavaScript's `String.prototype.replace` with a one-character string pattern: only the first occurrence changes. */
  function ReplaceFirst(s: string, from: char, to: char): (r: string)
    ensures |r| == |s|
    ensures forall i :: 0 <= i < |s| ==> r[i] == if i == IndexOf(s, from) then to else s[i]
  {
    if s == [] then []
    else if s[0] == from then [to] + s[1..]
    else [s[0]] + ReplaceFirst(s[1..], from, to)
  }

  /** The text on a status tag: the status with its first '-' replaced by a space. */
  function Label(status: string): string {
    ReplaceFirst(status, '-', ' ')
  }

  /** A string without `from` comes back unchanged. */
  lemma {:induction false} ReplaceFirstAbsent(s: string, from: char, to: char)
    requires from !in s
    ensures ReplaceFirst(s, from, to) == s
  {
    if s != [] {
      assert s[0] != from;
      assert from !in s[1..] by {
        forall i | 0 <= i < |s[1..]| ensures s[1..][i] != from { assert s[1..][i] == s[i + 1]; }
      }
      ReplaceFirstAbsent(s[1..], from, to);
    }
  }

  /** Only the first `from` is replaced: whatever follows it, later occurrences included, is kept. */
  lemma ReplaceFirstSplit(p: string, from: char, to: char, q: string)
    requires from !in p
    ensures ReplaceFirst(p + [from] + q, from, to) == p + [to] + q
  {
    var s := p + [from] + q;
    assert IndexOf(s, from) == |p| by {
      assert s[|p|] == from;
      assert forall i :: 0 <= i < |p| ==> s[i] == p[i];
    }
    assert forall i :: 0 <= i < |s| ==> ReplaceFirst(s, from, to)[i] == (p + [to] + q)[i];
  }

  /** The label of each status, spelled out. */
  lemma StatusLabel(s: Status)
    ensures Label(Name(s)) == match s
      case Unconfirmed => "unconfirmed"
      case CheckedIn => "checked in"
      case CheckedOut => "checked out"
  {
  }

  /** Distinct statuses get distinct labels, and no label contains a '-'. */
  lemma LabelsDistinct(s: Status, t: Status)
    ensures '-' !in Label(Name(s))
    ensures Label(Name(s)) == Label(Name(t)) ==> s == t
  {
    StatusLabel(s);
    StatusLabel(t);
    assert "checked in"[8] == 'i' && "checked out"[8] == 'o';
  }
}
