/** The status badge shown on every order card: a colour class looked up in
    a constant table and a label made from the status string. */
module StatusBadge {
  import opened Orders

  /** The statusColors table. */
  const STATUS_COLORS: map<string, string> := map[
    PENDING := "bg-yellow-100 text-yellow-800",
    ACCEPTED := "bg-blue-100 text-blue-800",
    PICKED_UP := "bg-purple-100 text-purple-800",
    ON_THE_WAY := "bg-orange-100 text-orange-800",
    DELIVERED := "bg-green-100 text-green-800"]

  /** The colour classes of a status, looked up among the table's own keys;
      `None` stands for the missing entry (JavaScript's `undefined`) of any
      other status. Keys inherited from the object prototype are not
      modelled. */
  function ColorClass(status: string): (r: Option<string>)
    ensures r.Some? <==> status in LIFECYCLE
  {
    if status in STATUS_COLORS then Some(STATUS_COLORS[status]) else None
  }

  /** No two statuses share a colour. */
  lemma ColorsAreDistinct(a: string, b: string)
    requires a in LIFECYCLE && b in LIFECYCLE && a != b
    ensures ColorClass(a).Some? && ColorClass(b).Some?
    ensures ColorClass(a).value != ColorClass(b).value
  {
  }

  /** toUpperCase on one character, for the ASCII letters the statuses use. */
  function UpperChar(c: char): (u: char)
    ensures 'a' <= c <= 'z' ==> u != c && 'A' <= u <= 'Z'
    ensures !('a' <= c <= 'z') ==> u == c
  {
    if 'a' <= c <= 'z' then (c as int - 32) as char else c
  }

  function ToUpper(s: string): (r: string)
    ensures |r| == |s|
    ensures forall i :: 0 <= i < |s| ==> r[i] == UpperChar(s[i])
  {
    if s == [] then [] else [UpperChar(s[0])] + ToUpper(s[1..])
  }

  /** Where `c` first occurs in `s`, or |s| when it does not. */
  function FirstIndex(s: string, c: char): (k: nat)
    ensures k <= |s|
    ensures forall i :: 0 <= i < k ==> s[i] != c
    ensures k < |s| ==> s[k] == c
    ensures k == |s| <==> c !in s
  {
    if s == [] then 0
    else if s[0] == c then 0
    else 1 + FirstIndex(s[1..], c)
  }

  /** String.prototype.replace with a one-character string pattern: only the
      first occurrence is replaced. */
  function ReplaceFirst(s: string, from: char, to: char): (r: string)
    ensures |r| == |s|
    ensures forall i :: 0 <= i < |s| ==> r[i] == if i == FirstIndex(s, from) then to else s[i]
  {
    if s == [] then []
    else if s[0] == from then [to] + s[1..]
    else [s[0]] + ReplaceFirst(s[1..], from, to)
  }

  /** The badge text: `status.replace('_', ' ').toUpperCase()`. Same length
      as the status; the first underscore becomes a space, every other
      character is upper-cased (later underscores stay). */
  function Label(status: string): (r: string)
    ensures |r| == |status|
    ensures forall i :: 0 <= i < |status| ==>
      r[i] == if i == FirstIndex(status, '_') then ' ' else UpperChar(status[i])
  {
    ToUpper(ReplaceFirst(status, '_', ' '))
  }

  /** A status without an underscore is only upper-cased. */
  lemma LabelWithoutUnderscore(status: string)
    requires '_' !in status
    ensures Label(status) == ToUpper(status)
  {
  }

  /** The labels of the five statuses as written: one underscore is
      replaced, so on_the_way keeps its second one. */
  lemma LabelPickedUp()
    ensures Label(PICKED_UP) == "PICKED UP"
  {
    FirstIndexAt(PICKED_UP, '_', 6);
    var r := Label(PICKED_UP);
    assert r[0] == 'P' && r[1] == 'I' && r[2] == 'C' && r[3] == 'K' && r[4] == 'E';
    assert r[5] == 'D' && r[6] == ' ' && r[7] == 'U' && r[8] == 'P';
    SpellsPickedUp(r);
  }

  lemma SpellsPickedUp(r: string)
    requires |r| == 9
    requires r[0] == 'P' && r[1] == 'I' && r[2] == 'C' && r[3] == 'K' && r[4] == 'E'
    requires r[5] == 'D' && r[6] == ' ' && r[7] == 'U' && r[8] == 'P'
    ensures r == "PICKED UP"
  {
  }

  lemma LabelOnTheWay()
    ensures Label(ON_THE_WAY) == "ON THE_WAY"
    ensures '_' in Label(ON_THE_WAY)
  {
    FirstIndexAt(ON_THE_WAY, '_', 2);
    var r := Label(ON_THE_WAY);
    assert r[0] == 'O' && r[1] == 'N' && r[2] == ' ' && r[3] == 'T' && r[4] == 'H';
    assert r[5] == 'E' && r[6] == '_' && r[7] == 'W' && r[8] == 'A' && r[9] == 'Y';
    SpellsOnTheWay(r);
  }

  lemma SpellsOnTheWay(r: string)
    requires |r| == 10
    requires r[0] == 'O' && r[1] == 'N' && r[2] == ' ' && r[3] == 'T' && r[4] == 'H'
    requires r[5] == 'E' && r[6] == '_' && r[7] == 'W' && r[8] == 'A' && r[9] == 'Y'
    ensures r == "ON THE_WAY"
  {
  }

  /** Pins down FirstIndex from a witness position. */
  lemma FirstIndexAt(s: string, c: char, k: nat)
    requires k < |s| && s[k] == c
    requires forall i :: 0 <= i < k ==> s[i] != c
    ensures FirstIndex(s, c) == k
  {
  }

  lemma LabelPending()
    ensures Label(PENDING) == "PENDING"
  {
    assert '_' !in PENDING;
    var r := Label(PENDING);
    assert r[0] == 'P' && r[1] == 'E' && r[2] == 'N' && r[3] == 'D';
    assert r[4] == 'I' && r[5] == 'N' && r[6] == 'G';
    SpellsPending(r);
  }

  lemma SpellsPending(r: string)
    requires |r| == 7
    requires r[0] == 'P' && r[1] == 'E' && r[2] == 'N' && r[3] == 'D'
    requires r[4] == 'I' && r[5] == 'N' && r[6] == 'G'
    ensures r == "PENDING"
  {
  }

  /** Every occurrence replaced, as a global replace would do. */
  function ReplaceAll(s: string, from: char, to: char): (r: string)
    requires from != to
    ensures |r| == |s|
    ensures from !in r
    ensures forall i :: 0 <= i < |s| ==> r[i] == if s[i] == from then to else s[i]
  {
    if s == [] then []
    else [if s[0] == from then to else s[0]] + ReplaceAll(s[1..], from, to)
  }

  /** The label with every underscore turned into a space. */
  function LabelAll(status: string): (r: string)
    ensures |r| == |status|
    ensures '_' !in r
    ensures forall i :: 0 <= i < |status| ==>
      r[i] == if status[i] == '_' then ' ' else UpperChar(status[i])
  {
    ToUpper(ReplaceAll(status, '_', ' '))
  }

  /** The corrected label agrees with the written one on every status with
      at most one underscore, and reads "ON THE WAY" for on_the_way. */
  lemma LabelAllAgreesUpToOneUnderscore(status: string)
    requires forall i, j :: 0 <= i < j < |status| ==> !(status[i] == '_' && status[j] == '_')
    ensures LabelAll(status) == Label(status)
  {
    var k := FirstIndex(status, '_');
    forall i | 0 <= i < |status|
      ensures LabelAll(status)[i] == Label(status)[i]
    {
      if status[i] == '_' && i != k {
        assert k < |status| && status[k] == '_';
        if k < i {
          assert status[k] == '_' && status[i] == '_';
        }
      }
    }
  }

  lemma LabelAllOnTheWay()
    ensures LabelAll(ON_THE_WAY) == "ON THE WAY"
  {
    var spaced := ReplaceAll(ON_THE_WAY, '_', ' ');
    assert spaced[0] == 'o' && spaced[1] == 'n' && spaced[2] == ' ' && spaced[3] == 't' && spaced[4] == 'h';
    assert spaced[5] == 'e' && spaced[6] == ' ' && spaced[7] == 'w' && spaced[8] == 'a' && spaced[9] == 'y';
    SpellsLowerOnTheWay(spaced);
    UpperOnTheWay();
  }

  lemma SpellsLowerOnTheWay(r: string)
    requires |r| == 10
    requires r[0] == 'o' && r[1] == 'n' && r[2] == ' ' && r[3] == 't' && r[4] == 'h'
    requires r[5] == 'e' && r[6] == ' ' && r[7] == 'w' && r[8] == 'a' && r[9] == 'y'
    ensures r == "on the way"
  {
  }

  lemma UpperOnTheWay()
    ensures ToUpper("on the way") == "ON THE WAY"
  {
    var r := ToUpper("on the way");
    assert r[0] == 'O' && r[1] == 'N' && r[2] == ' ' && r[3] == 'T' && r[4] == 'H';
    assert r[5] == 'E' && r[6] == ' ' && r[7] == 'W' && r[8] == 'A' && r[9] == 'Y';
    SpellsOnTheWayWithSpaces(r);
  }

  lemma SpellsOnTheWayWithSpaces(r: string)
    requires |r| == 10
    requires r[0] == 'O' && r[1] == 'N' && r[2] == ' ' && r[3] == 'T' && r[4] == 'H'
    requires r[5] == 'E' && r[6] == ' ' && r[7] == 'W' && r[8] == 'A' && r[9] == 'Y'
    ensures r == "ON THE WAY"
  {
  }
}
