/** IEEE 802.11 element streams (section 9.4.2.1 of IEEE Std 802.11-2020): validation,
    truncation to whole elements, and the in-place PSK/SAE transition-mode rewrite. */
module Elements {
  import opened Common

  const MAX_STREAM := 2048

  datatype RawElement = RawElement(id: Byte, body: Bytes)

  type Element = e: RawElement | |e.body| <= 255 witness RawElement(0, [])

  function Write(e: Element): Bytes {
    [e.id, |e.body| as Byte] + e.body
  }

  function WriteAll(es: seq<Element>): Bytes {
    if es == [] then [] else Write(es[0]) + WriteAll(es[1..])
  }

  /** A complete element lies at the front of the stream. */
  predicate Starts(b: Bytes) {
    2 <= |b| && b[1] as nat + 2 <= |b|
  }

  function First(b: Bytes): Element
    requires Starts(b)
  {
    RawElement(b[0], b[2..b[1] as nat + 2])
  }

  function Rest(b: Bytes): (r: Bytes)
    requires Starts(b)
    ensures |r| == |b| - 2 - b[1] as nat
  {
    b[b[1] as nat + 2..]
  }

  lemma FirstThenRest(b: Bytes)
    requires Starts(b)
    ensures Write(First(b)) + Rest(b) == b
  {
  }

  lemma WriteStarts(e: Element, rest: Bytes)
    ensures Starts(Write(e) + rest)
    ensures First(Write(e) + rest) == e && Rest(Write(e) + rest) == rest
  {
    var b := Write(e) + rest;
    assert b[2..|e.body| + 2] == e.body;
  }

  /** The reference parser: `None` when some element runs past the end of the stream. */
  function Parse(b: Bytes): Option<seq<Element>>
    decreases |b|
  {
    if b == [] then Some([])
    else if !Starts(b) then None
    else
      match Parse(Rest(b))
      case None => None
      case Some(rest) => Some([First(b)] + rest)
  }

  lemma {:induction false} ParseOfWriteAll(es: seq<Element>)
    ensures Parse(WriteAll(es)) == Some(es)
  {
    if es != [] {
      ParseOfWriteAll(es[1..]);
      WriteStarts(es[0], WriteAll(es[1..]));
      assert [es[0]] + es[1..] == es;
    }
  }

  lemma {:induction false} WriteAllOfParse(b: Bytes)
    requires Parse(b).Some?
    ensures WriteAll(Parse(b).value) == b
    decreases |b|
  {
    if b != [] {
      WriteAllOfParse(Rest(b));
      FirstThenRest(b);
      assert Parse(b).value[1..] == Parse(Rest(b)).value;
    }
  }

  lemma {:induction false} WriteAllAppends(xs: seq<Element>, ys: seq<Element>)
    ensures WriteAll(xs + ys) == WriteAll(xs) + WriteAll(ys)
  {
    if xs == [] {
      assert xs + ys == ys;
    } else {
      WriteAllAppends(xs[1..], ys);
      assert (xs + ys)[1..] == xs[1..] + ys;
    }
  }

  /** Two element lists with the same bytes are the same list. */
  lemma WriteAllInjective(xs: seq<Element>, ys: seq<Element>)
    requires WriteAll(xs) == WriteAll(ys)
    ensures xs == ys
  {
    ParseOfWriteAll(xs);
    ParseOfWriteAll(ys);
  }

  // -------------------------------------------------------------------------
  // Validation and truncation
  // -------------------------------------------------------------------------

  predicate Valid(b: Bytes) {
    |b| <= MAX_STREAM && Parse(b).Some?
  }

  /** `data` is null or points at `length` readable bytes. */
  method ValidIEs(data: array?<Byte>, length: nat) returns (ok: bool)
    requires data != null ==> length <= data.Length
    ensures ok <==> data != null && Valid(data[..length])
  {
    if data == null || length > 2048 {
      return false;
    }
    var at := 0;
    while at < length
      invariant 0 <= at <= length
      invariant Parse(data[..length]).Some? <==> Parse(data[at..length]).Some?
    {
      if length - at < 2 || data[at + 1] as nat + 2 > length - at {
        return false;
      }
      var next := data[at + 1] as nat + 2;
      assert Rest(data[at..length]) == data[at + next..length];
      at := at + next;
    }
    return true;
  }

  /** Length of the whole elements at the front of `b`. */
  function WholeLength(b: Bytes): (n: nat)
    ensures n <= |b|
    decreases |b|
  {
    if !Starts(b) then 0 else b[1] as nat + 2 + WholeLength(Rest(b))
  }

  lemma RestOfPrefix(b: Bytes, k: nat)
    requires Starts(b) && b[1] as nat + 2 <= k <= |b|
    ensures Starts(b[..k]) && Rest(b[..k]) == Rest(b)[..k - (b[1] as nat + 2)]
  {
  }

  lemma {:induction false} WholePrefixParses(b: Bytes)
    ensures Parse(b[..WholeLength(b)]).Some?
    decreases |b|
  {
    if Starts(b) {
      WholePrefixParses(Rest(b));
      RestOfPrefix(b, WholeLength(b));
    }
  }

  lemma {:induction false} NoLongerPrefixParses(b: Bytes, k: nat)
    requires WholeLength(b) < k <= |b|
    ensures Parse(b[..k]).None?
    decreases |b|
  {
    if Starts(b) && b[1] as nat + 2 <= k {
      NoLongerPrefixParses(Rest(b), k - (b[1] as nat + 2));
      RestOfPrefix(b, k);
    }
  }

  /** The whole elements at the front are the longest prefix that parses, and for a stream
      within the size limit they are all of it exactly when the validator accepts it. */
  lemma WholeLengthIsLongest(b: Bytes)
    ensures Parse(b[..WholeLength(b)]).Some?
    ensures forall k :: WholeLength(b) < k <= |b| ==> Parse(b[..k]).None?
    ensures |b| <= MAX_STREAM ==> Valid(b[..WholeLength(b)])
    ensures |b| <= MAX_STREAM ==> (WholeLength(b) == |b| <==> Valid(b))
  {
    WholePrefixParses(b);
    forall k | WholeLength(b) < k <= |b| ensures Parse(b[..k]).None? {
      NoLongerPrefixParses(b, k);
    }
    assert b[..|b|] == b;
  }

  /** The truncation loop of the scan-result path. */
  method KeepWholeElements(scanIE: array<Byte>, scanIELength: nat) returns (validLength: nat)
    requires scanIELength <= scanIE.Length
    ensures validLength == WholeLength(scanIE[..scanIELength])
  {
    validLength := 0;
    ghost var b := scanIE[..scanIELength];
    assert b[0..] == b;
    while validLength + 2 <= scanIELength
      invariant 0 <= validLength <= scanIELength
      invariant WholeLength(b) == validLength + WholeLength(b[validLength..])
    {
      var elementLength := scanIE[validLength + 1] as nat + 2;
      assert b[validLength..][1] == scanIE[validLength + 1];
      if elementLength > scanIELength - validLength {
        break;
      }
      assert Rest(b[validLength..]) == b[validLength + elementLength..];
      validLength := validLength + elementLength;
    }
  }

  // -------------------------------------------------------------------------
  // The robust security network element (section 9.4.2.24)
  // -------------------------------------------------------------------------

  type Suite = s: Bytes | |s| == 4 witness [0, 0, 0, 0]

  const RSN_ID: Byte := 48
  const PSK: Suite := [0, 0x0f, 0xac, 2]
  const SAE: Suite := [0, 0x0f, 0xac, 8]

  /** The fields of a version 1 RSN element; `tail` starts at the RSN capabilities. */
  datatype Rsn = Rsn(group: Suite, pairwise: seq<Suite>, akms: seq<Suite>, tail: Bytes)

  predicate Countable(r: Rsn) {
    0 < |r.pairwise| < 0x1_0000 && |r.akms| < 0x1_0000
  }

  function Le16(n: nat): Bytes
    requires n < 0x1_0000
  {
    [(n % 256) as Byte, (n / 256) as Byte]
  }

  function Read16(b: Bytes, at: nat): (n: nat)
    requires at + 2 <= |b|
    ensures n < 0x1_0000
  {
    b[at] as nat + 256 * b[at + 1] as nat
  }

  function Flatten(suites: seq<Suite>): (b: Bytes)
    ensures |b| == 4 * |suites|
  {
    if suites == [] then [] else suites[0] + Flatten(suites[1..])
  }

  function EncodeList(suites: seq<Suite>): (b: Bytes)
    requires |suites| < 0x1_0000
    ensures |b| == 2 + 4 * |suites|
  {
    Le16(|suites|) + Flatten(suites)
  }

  function Encode(r: Rsn): Bytes
    requires Countable(r)
  {
    [1, 0] + r.group + EncodeList(r.pairwise) + EncodeList(r.akms) + r.tail
  }

  /** A personal transition network: PSK and SAE, nothing else, with management frame
      protection offered but not required. */
  predicate Transition(r: Rsn) {
    && 2 <= |r.akms|
    && PSK in r.akms && SAE in r.akms
    && (forall s :: s in r.akms ==> s == PSK || s == SAE)
    && 2 <= |r.tail| && 128 <= r.tail[0] as int < 192
  }

  /** Where the AKM list of a convertible body lies. */
  datatype Layout = Layout(countOffset: nat, count: nat) {
    function Suites(): nat { countOffset + 2 }
    function Tail(): nat { countOffset + 2 + 4 * count }
  }

  function SuiteAt(b: Bytes, at: nat, i: nat): Suite
    requires at + 4 * i + 4 <= |b|
  {
    b[at + 4 * i..at + 4 * i + 4]
  }

  predicate AllPersonal(b: Bytes, at: nat, n: nat)
    requires at + 4 * n <= |b|
  {
    forall i :: 0 <= i < n ==> SuiteAt(b, at, i) == PSK || SuiteAt(b, at, i) == SAE
  }

  predicate Lists(b: Bytes, at: nat, n: nat, s: Suite)
    requires at + 4 * n <= |b|
  {
    exists i :: 0 <= i < n && SuiteAt(b, at, i) == s
  }

  /** Number of suites in the counted list at `at`, when the whole list fits. */
  function ListCount(b: Bytes, at: nat): (n: Option<nat>)
    ensures n.Some? ==> at + 2 + 4 * n.value <= |b| && n.value < 0x1_0000
  {
    if |b| < at + 2 || Read16(b, at) > (|b| - at - 2) / 4 then None
    else Some(Read16(b, at))
  }

  /** The place of the AKM list in a version 1 RSN body. */
  function Shape(b: Bytes): (l: Option<Layout>)
    ensures l.Some? ==> 12 <= l.value.countOffset && l.value.Tail() <= |b| && l.value.count < 0x1_0000
  {
    if |b| < 8 || Read16(b, 0) != 1 then None else
    var pairwise := ListCount(b, 6);
    if pairwise.None? || pairwise.value == 0 then None else
    var at := 8 + 4 * pairwise.value;
    var count := ListCount(b, at);
    if count.None? then None else Some(Layout(at, count.value))
  }

  predicate Personal(b: Bytes, l: Layout)
    requires l.Tail() <= |b|
  {
    && 2 <= l.count
    && l.Tail() + 2 <= |b| && 128 <= b[l.Tail()] as int < 192
    && AllPersonal(b, l.Suites(), l.count)
    && Lists(b, l.Suites(), l.count, PSK) && Lists(b, l.Suites(), l.count, SAE)
  }

  /** The AKM list of an element that has to be presented as WPA2. */
  function Find(e: Element): (l: Option<Layout>)
    ensures l.Some? ==> 2 <= l.value.count && 12 <= l.value.countOffset
                        && l.value.Tail() + 2 <= |e.body|
  {
    if e.id != RSN_ID then None else
    var l := Shape(e.body);
    if l.Some? && Personal(e.body, l.value) then l else None
  }

  /** A body whose AKM list has been replaced by a single PSK suite. */
  function Collapsed(b: Bytes, l: Layout): (r: Bytes)
    requires 1 <= l.count && l.Tail() <= |b|
    ensures |r| == |b| - 4 * (l.count - 1)
  {
    b[..l.countOffset] + [1, 0] + PSK + b[l.Tail()..]
  }

  /** What the rewrite does to one element. */
  function Select(e: Element): (r: Element)
    ensures r.id == e.id && |r.body| <= |e.body|
  {
    match Find(e)
    case None => e
    case Some(l) => RawElement(e.id, Collapsed(e.body, l))
  }

  function SelectAll(es: seq<Element>): (r: seq<Element>)
    ensures |r| == |es|
    ensures forall i :: 0 <= i < |es| ==> r[i] == Select(es[i])
  {
    seq(|es|, i requires 0 <= i < |es| => Select(es[i]))
  }

  /** What the rewrite does to a stream: parse, map, concatenate. */
  function SelectStream(b: Bytes): Bytes {
    if Valid(b) then WriteAll(SelectAll(Parse(b).value)) else b
  }

  // -------------------------------------------------------------------------
  // What the offsets mean
  // -------------------------------------------------------------------------

  function SuitesAt(b: Bytes, at: nat, n: nat): (r: seq<Suite>)
    requires at + 4 * n <= |b|
    ensures |r| == n
    ensures forall i :: 0 <= i < n ==> r[i] == SuiteAt(b, at, i)
  {
    seq(n, i requires 0 <= i < n => SuiteAt(b, at, i))
  }

  lemma {:induction false} FlattenOfSuitesAt(b: Bytes, at: nat, n: nat)
    requires at + 4 * n <= |b|
    ensures Flatten(SuitesAt(b, at, n)) == b[at..at + 4 * n]
    decreases n
  {
    if n > 0 {
      FlattenOfSuitesAt(b, at + 4, n - 1);
      var suites := SuitesAt(b, at, n);
      forall i | 0 <= i < n - 1 ensures suites[1..][i] == SuitesAt(b, at + 4, n - 1)[i] {
        assert suites[1..][i] == SuiteAt(b, at, i + 1);
      }
      assert suites[1..] == SuitesAt(b, at + 4, n - 1);
      assert b[at..at + 4] + b[at + 4..at + 4 * n] == b[at..at + 4 * n];
    }
  }

  lemma {:induction false} SuiteInFlatten(suites: seq<Suite>, b: Bytes, at: nat, i: nat)
    requires at + 4 * |suites| <= |b| && b[at..at + 4 * |suites|] == Flatten(suites)
    requires i < |suites|
    ensures SuiteAt(b, at, i) == suites[i]
    decreases i
  {
    var f := Flatten(suites);
    assert f[..4] == suites[0];
    assert b[at..at + 4] == f[..4];
    if i > 0 {
      assert b[at + 4..at + 4 + 4 * |suites[1..]|] == f[4..];
      SuiteInFlatten(suites[1..], b, at + 4, i - 1);
    }
  }

  lemma EncodeListOfSuitesAt(b: Bytes, at: nat)
    requires ListCount(b, at).Some?
    ensures var n := ListCount(b, at).value;
            EncodeList(SuitesAt(b, at + 2, n)) == b[at..at + 2 + 4 * n]
  {
    var n := ListCount(b, at).value;
    FlattenOfSuitesAt(b, at + 2, n);
    assert Le16(n) == b[at..at + 2];
    assert b[at..at + 2] + b[at + 2..at + 2 + 4 * n] == b[at..at + 2 + 4 * n];
  }

  lemma ListCountOfEncodeList(b: Bytes, at: nat, suites: seq<Suite>)
    requires |suites| < 0x1_0000 && at + 2 + 4 * |suites| <= |b|
    requires b[at..at + 2 + 4 * |suites|] == EncodeList(suites)
    ensures ListCount(b, at) == Some(|suites|)
    ensures SuitesAt(b, at + 2, |suites|) == suites
  {
    var list := EncodeList(suites);
    assert b[at] == list[0] && b[at + 1] == list[1];
    assert b[at + 2..at + 2 + 4 * |suites|] == list[2..] == Flatten(suites);
    forall i | 0 <= i < |suites| ensures SuiteAt(b, at + 2, i) == suites[i] {
      SuiteInFlatten(suites, b, at + 2, i);
    }
  }

  /** The fields that a layout stands for. */
  function Fields(b: Bytes, l: Layout): Rsn
    requires Shape(b) == Some(l)
  {
    Rsn(b[2..6], SuitesAt(b, 8, ListCount(b, 6).value), SuitesAt(b, l.Suites(), l.count), b[l.Tail()..])
  }

  lemma EncodeOfFields(b: Bytes, l: Layout)
    requires Shape(b) == Some(l)
    ensures Countable(Fields(b, l)) && Encode(Fields(b, l)) == b
  {
    EncodeListOfSuitesAt(b, 6);
    EncodeListOfSuitesAt(b, l.countOffset);
    EncodePieces(b, Fields(b, l), l.countOffset, l.Tail());
  }

  lemma EncodePieces(b: Bytes, r: Rsn, i: nat, j: nat)
    requires 8 <= i <= j <= |b| && Read16(b, 0) == 1 && Countable(r)
    requires r.group == b[2..6] && r.tail == b[j..]
    requires EncodeList(r.pairwise) == b[6..i] && EncodeList(r.akms) == b[i..j]
    ensures Encode(r) == b
  {
    assert b[0] == 1 && b[1] == 0;
    assert b == [1, 0] + b[2..6] + b[6..i] + b[i..j] + b[j..];
  }

  lemma FieldsOfEncode(b: Bytes, r: Rsn)
    requires Countable(r) && b == Encode(r)
    ensures Shape(b) == Some(Layout(8 + 4 * |r.pairwise|, |r.akms|))
    ensures Fields(b, Shape(b).value) == r
  {
    var l := Layout(8 + 4 * |r.pairwise|, |r.akms|);
    assert b[0..2] == [1, 0];
    assert b[0] == b[0..2][0] && b[1] == b[0..2][1];
    assert b[6..l.countOffset] == EncodeList(r.pairwise);
    ListCountOfEncodeList(b, 6, r.pairwise);
    assert b[l.countOffset..l.Tail()] == EncodeList(r.akms);
    ListCountOfEncodeList(b, l.countOffset, r.akms);
    assert b[l.Tail()..] == r.tail;
    assert b[2..6] == r.group;
  }

  /** The byte-level test for a transition network agrees with the one on fields. */
  lemma PersonalIsTransition(b: Bytes, l: Layout)
    requires Shape(b) == Some(l)
    ensures Personal(b, l) <==> Transition(Fields(b, l))
  {
    var akms := Fields(b, l).akms;
    if Personal(b, l) {
      var i :| 0 <= i < l.count && SuiteAt(b, l.Suites(), i) == PSK;
      assert akms[i] == PSK;
      var j :| 0 <= j < l.count && SuiteAt(b, l.Suites(), j) == SAE;
      assert akms[j] == SAE;
    }
    if Transition(Fields(b, l)) {
      var i :| 0 <= i < |akms| && akms[i] == PSK;
      assert SuiteAt(b, l.Suites(), i) == PSK;
      var j :| 0 <= j < |akms| && akms[j] == SAE;
      assert SuiteAt(b, l.Suites(), j) == SAE;
      forall k | 0 <= k < l.count
        ensures SuiteAt(b, l.Suites(), k) == PSK || SuiteAt(b, l.Suites(), k) == SAE
      {
        assert akms[k] in akms;
      }
    }
  }

  /** Exactly the RSN elements of transition networks are changed. */
  lemma ConvertsExactlyTransitionNetworks(e: Element)
    ensures Select(e) != e <==>
      e.id == RSN_ID && exists r :: Countable(r) && e.body == Encode(r) && Transition(r)
  {
    if e.id == RSN_ID && exists r :: Countable(r) && e.body == Encode(r) && Transition(r) {
      var r :| Countable(r) && e.body == Encode(r) && Transition(r);
      FieldsOfEncode(e.body, r);
      PersonalIsTransition(e.body, Shape(e.body).value);
      assert |Select(e).body| < |e.body|;
    } else if Find(e).Some? {
      EncodeOfFields(e.body, Find(e).value);
      PersonalIsTransition(e.body, Find(e).value);
      assert false;
    }
  }

  /** A converted element keeps every field but the AKM list, which becomes PSK alone. */
  lemma ConversionKeepsOtherFields(e: Element, r: Rsn)
    requires e.id == RSN_ID && Countable(r) && e.body == Encode(r) && Transition(r)
    ensures Select(e).id == e.id && Select(e).body == Encode(r.(akms := [PSK]))
  {
    FieldsOfEncode(e.body, r);
    var l := Shape(e.body).value;
    PersonalIsTransition(e.body, l);
    assert Flatten([PSK]) == PSK;
    assert EncodeList([PSK]) == [1, 0] + PSK;
    assert e.body[..l.countOffset] == [1, 0] + r.group + EncodeList(r.pairwise);
    assert e.body[l.Tail()..] == r.tail;
  }

  lemma SelectIsIdempotent(e: Element)
    ensures Select(Select(e)) == Select(e)
  {
    if Find(e).Some? {
      var b, l, f := e.body, Find(e).value, Select(e).body;
      assert f[..l.countOffset] == b[..l.countOffset];
      assert f[0] == b[0] && f[1] == b[1] && f[6] == b[6] && f[7] == b[7];
      assert f[l.countOffset] == 1 && f[l.countOffset + 1] == 0;
      assert Read16(f, l.countOffset) == 1;
    }
  }

  // -------------------------------------------------------------------------
  // The stream theorem
  // -------------------------------------------------------------------------

  lemma {:induction false} SelectAllShrinks(es: seq<Element>)
    ensures |WriteAll(SelectAll(es))| <= |WriteAll(es)|
  {
    if es != [] {
      SelectAllShrinks(es[1..]);
      assert SelectAll(es)[1..] == SelectAll(es[1..]);
    }
  }

  /** The rewritten stream is valid and no longer than the original, has one element for
      each original element in the same order, and a second pass changes nothing. */
  lemma StreamIsSelectedElementwise(b: Bytes)
    requires Valid(b)
    ensures Valid(SelectStream(b)) && |SelectStream(b)| <= |b|
    ensures |Parse(SelectStream(b)).value| == |Parse(b).value|
    ensures forall i :: 0 <= i < |Parse(b).value| ==>
              Parse(SelectStream(b)).value[i] == Select(Parse(b).value[i])
    ensures SelectStream(SelectStream(b)) == SelectStream(b)
  {
    var es := Parse(b).value;
    WriteAllOfParse(b);
    SelectAllShrinks(es);
    ParseOfWriteAll(SelectAll(es));
    forall i | 0 <= i < |es| ensures SelectAll(SelectAll(es))[i] == SelectAll(es)[i] {
      SelectIsIdempotent(es[i]);
    }
    assert SelectAll(SelectAll(es)) == SelectAll(es);
  }

  // -------------------------------------------------------------------------
  // The in-place rewrite
  // -------------------------------------------------------------------------

  /** memmove towards the front of the buffer. */
  method MoveDown(a: array<Byte>, to: nat, from: nat, n: nat)
    requires to <= from && from + n <= a.Length
    modifies a
    ensures a[to..to + n] == old(a[from..from + n])
    ensures a[..to] == old(a[..to]) && a[from + n..] == old(a[from + n..])
  {
    for k := 0 to n
      invariant forall i :: 0 <= i < to ==> a[i] == old(a[i])
      invariant forall i :: to <= i < to + k ==> a[i] == old(a[i + (from - to)])
      invariant forall i :: from + k <= i < a.Length ==> a[i] == old(a[i])
    {
      a[to + k] := a[from + k];
    }
  }

  /** The count of the list `at` bytes into the body at `base`, when the list fits. */
  method ReadCount(ies: array<Byte>, base: nat, size: nat, at: nat) returns (n: Option<nat>)
    requires base + size <= ies.Length && at <= size
    ensures n == ListCount(ies[base..base + size], at)
  {
    if size - at < 2 {
      return None;
    }
    var count := ies[base + at] as nat + 256 * ies[base + at + 1] as nat;
    if count > (size - at - 2) / 4 {
      return None;
    }
    n := Some(count);
  }

  /** Walks the version, the group suite and the two counted lists of a body. */
  method FindShape(ies: array<Byte>, base: nat, size: nat) returns (l: Option<Layout>)
    requires base + size <= ies.Length
    ensures l == Shape(ies[base..base + size])
  {
    ghost var b := ies[base..base + size];
    if size < 8 || ies[base] as nat + 256 * ies[base + 1] as nat != 1 {
      return None;
    }
    var pairwise := ReadCount(ies, base, size, 6);
    if pairwise.None? || pairwise.value == 0 {
      return None;
    }
    var countOffset := 8 + 4 * pairwise.value;
    var count := ReadCount(ies, base, size, countOffset);
    if count.None? {
      return None;
    }
    l := Some(Layout(countOffset, count.value));
  }

  /** The run of checks that decides whether the element with this body is converted. */
  method Inspect(ies: array<Byte>, id: Byte, base: nat, size: nat, ghost e: Element) returns (l: Option<Layout>)
    requires base + size <= ies.Length
    requires e.id == id && e.body == ies[base..base + size]
    ensures l == Find(e)
  {
    if id != 48 {
      return None;
    }
    l := FindShape(ies, base, size);
    if l.None? {
      return;
    }
    var personal := InspectAkms(ies, base, size, l.value);
    if !personal {
      l := None;
    }
  }

  method InspectAkms(ies: array<Byte>, base: nat, size: nat, l: Layout) returns (personal: bool)
    requires base + size <= ies.Length && l.Tail() <= size
    ensures personal == Personal(ies[base..base + size], l)
  {
    ghost var b := ies[base..base + size];
    // Bits 6 and 7 of the RSN capabilities: protection capable but not required.
    if l.count < 2 || size - l.Tail() < 2 || ies[base + l.Tail()] as nat / 64 != 2 {
      return false;
    }
    assert b[l.Tail()] == ies[base + l.Tail()];
    var psk, sae, other := ScanSuites(ies, base, size, l.Suites(), l.count);
    return psk && sae && !other;
  }

  /** One pass over the AKM suites of the body at `base`. */
  method ScanSuites(ies: array<Byte>, base: nat, size: nat, at: nat, count: nat)
    returns (psk: bool, sae: bool, other: bool)
    requires base + size <= ies.Length && at + 4 * count <= size
    ensures psk == Lists(ies[base..base + size], at, count, PSK)
    ensures sae == Lists(ies[base..base + size], at, count, SAE)
    ensures other == !AllPersonal(ies[base..base + size], at, count)
  {
    psk, sae, other := false, false, false;
    ghost var b := ies[base..base + size];
    for i := 0 to count
      invariant psk == Lists(b, at, i, PSK) && sae == Lists(b, at, i, SAE)
      invariant other == !AllPersonal(b, at, i)
    {
      var suite := base + at + 4 * i;
      NextSuite(b, at, i);
      if ies[suite] != 0 || ies[suite + 1] != 0x0f || ies[suite + 2] != 0xac {
        other := true;
      } else if ies[suite + 3] == 2 {
        psk := true;
      } else if ies[suite + 3] == 8 {
        sae := true;
      } else {
        other := true;
      }
    }
  }

  lemma NextSuite(b: Bytes, at: nat, i: nat)
    requires at + 4 * i + 4 <= |b|
    ensures var p := at + 4 * i;
      var personal := b[p] == 0 && b[p + 1] == 0x0f && b[p + 2] == 0xac;
      && Lists(b, at, i + 1, PSK) == (Lists(b, at, i, PSK) || (personal && b[p + 3] == 2))
      && Lists(b, at, i + 1, SAE) == (Lists(b, at, i, SAE) || (personal && b[p + 3] == 8))
      && AllPersonal(b, at, i + 1) == (AllPersonal(b, at, i) && personal && (b[p + 3] == 2 || b[p + 3] == 8))
  {
    var s := SuiteAt(b, at, i);
    SuiteValue(s);
    ListsStep(b, at, i, PSK);
    ListsStep(b, at, i, SAE);
    assert AllPersonal(b, at, i + 1) == (AllPersonal(b, at, i) && (s == PSK || s == SAE));
  }

  lemma SuiteValue(s: Suite)
    ensures s == PSK <==> s[0] == 0 && s[1] == 0x0f && s[2] == 0xac && s[3] == 2
    ensures s == SAE <==> s[0] == 0 && s[1] == 0x0f && s[2] == 0xac && s[3] == 8
  {
  }

  lemma ListsStep(b: Bytes, at: nat, i: nat, s: Suite)
    requires at + 4 * i + 4 <= |b|
    ensures Lists(b, at, i + 1, s) == (Lists(b, at, i, s) || SuiteAt(b, at, i) == s)
  {
    if Lists(b, at, i, s) {
      var k :| 0 <= k < i && SuiteAt(b, at, k) == s;
      assert 0 <= k < i + 1;
    }
  }

  /** Writes a one-suite AKM list at `list`, closes the gap up to `tail` and lowers the
      length byte of the element that starts at `offset`. */
  method Collapse(ies: array<Byte>, offset: nat, list: nat, tail: nat, length: nat)
    requires offset + 2 <= list && list + 6 <= tail <= length <= ies.Length
    requires tail - (list + 6) <= ies[offset + 1] as int
    modifies ies
    ensures ies[..offset + 1] == old(ies[..offset + 1]) && ies[length..] == old(ies[length..])
    ensures ies[offset + 1] as int == old(ies[offset + 1]) as int - (tail - (list + 6))
    ensures ies[offset + 2..list] == old(ies[offset + 2..list])
    ensures ies[list..list + 6] == [1, 0] + PSK
    ensures ies[list + 6..length - (tail - (list + 6))] == old(ies[tail..length])
  {
    ies[list + 2], ies[list + 3], ies[list + 4], ies[list + 5] := 0, 0x0f, 0xac, 2;
    ies[list] := 1;
    ies[list + 1] := 0;
    assert ies[list..list + 6] == [1, 0] + PSK;
    assert ies[..list] == old(ies[..list]);
    assert ies[tail..] == old(ies[tail..]);
    MoveAndShorten(ies, offset, list, tail, length);
  }

  method MoveAndShorten(ies: array<Byte>, offset: nat, list: nat, tail: nat, length: nat)
    requires offset + 2 <= list && list + 6 <= tail <= length <= ies.Length
    requires tail - (list + 6) <= ies[offset + 1] as int
    modifies ies
    ensures forall i :: 0 <= i < list + 6 && i != offset + 1 ==> ies[i] == old(ies[i])
    ensures ies[offset + 1] as int == old(ies[offset + 1]) as int - (tail - (list + 6))
    ensures ies[list + 6..length - (tail - (list + 6))] == old(ies[tail..length])
    ensures ies[length..] == old(ies[length..])
  {
    MoveDown(ies, list + 6, tail, length - tail);
    assert forall i :: 0 <= i < list + 6 ==> ies[i] == ies[..list + 6][i] == old(ies[i]);
    ghost var moved := ies[list + 6..];
    ies[offset + 1] := (ies[offset + 1] as int - (tail - (list + 6))) as Byte;
    assert ies[list + 6..] == moved;
  }

  /** The pieces left by `Collapse` are the shortened element and the elements after it. */
  lemma CollapsedPieces(was: Bytes, now: Bytes, body: Bytes, l: Layout, rest: Bytes)
    requires l.count >= 2 && l.Tail() <= |body| && |was| == 2 + |body| + |rest|
    requires was[2..] == body + rest
    requires |now| == |was| - 4 * (l.count - 1)
    requires now[2..2 + l.countOffset] == was[2..2 + l.countOffset]
    requires now[2 + l.countOffset..8 + l.countOffset] == [1, 0] + PSK
    requires now[8 + l.countOffset..] == was[2 + l.Tail()..]
    ensures now[2..] == Collapsed(body, l) + rest
  {
    var c := 2 + l.countOffset;
    assert was[2..c] == was[2..][..l.countOffset] == body[..l.countOffset];
    assert was[2 + l.Tail()..] == was[2..][l.Tail()..] == body[l.Tail()..] + rest;
    assert now[2..] == now[2..c] + now[c..c + 6] + now[c + 6..];
  }

  lemma NextSelected(es: seq<Element>, done: nat)
    requires done < |es|
    ensures WriteAll(es[done..]) == Write(es[done]) + WriteAll(es[done + 1..])
    ensures WriteAll(SelectAll(es[..done + 1])) == WriteAll(SelectAll(es[..done])) + Write(Select(es[done]))
  {
    assert es[done..][1..] == es[done + 1..];
    assert SelectAll(es[..done + 1]) == SelectAll(es[..done]) + [Select(es[done])];
    WriteAllAppends(SelectAll(es[..done]), [Select(es[done])]);
    assert WriteAll([Select(es[done])]) == Write(Select(es[done]));
  }

  lemma SliceOfSlice(a: Bytes, i: nat, j: nat, k: nat, m: nat)
    requires i <= j <= |a| && k <= m <= j - i
    ensures a[i..j][k..m] == a[i + k..i + m]
  {
    forall x | 0 <= x < m - k ensures a[i..j][k..m][x] == a[i + k..i + m][x] {
      assert a[i..j][k + x] == a[i + (k + x)];
    }
  }

  /** `Collapse` in terms of the element's body and what follows the element. */
  method CollapseElement(ies: array<Byte>, offset: nat, length: nat, l: Layout, ghost body: Bytes, ghost rest: Bytes)
    requires l.count >= 2 && l.Tail() <= |body| <= 255
    requires offset + 2 + |body| + |rest| == length <= ies.Length
    requires ies[offset + 1] as int == |body| && ies[offset + 2..length] == body + rest
    modifies ies
    ensures ies[..offset + 1] == old(ies[..offset + 1]) && ies[length..] == old(ies[length..])
    ensures ies[offset + 1] as int == |body| - 4 * (l.count - 1)
    ensures ies[offset + 2..length - 4 * (l.count - 1)] == Collapsed(body, l) + rest
  {
    ghost var was := ies[offset..length];
    var list := offset + 2 + l.countOffset;
    var tail := list + 2 + 4 * l.count;
    assert was[2..] == ies[offset + 2..length];
    SliceOfSlice(ies[..], offset, length, 2, 2 + l.countOffset);
    SliceOfSlice(ies[..], offset, length, 2 + l.Tail(), |was|);
    Collapse(ies, offset, list, tail, length);
    ghost var now := ies[offset..length - 4 * (l.count - 1)];
    SliceOfSlice(ies[..], offset, length - 4 * (l.count - 1), 2, 2 + l.countOffset);
    SliceOfSlice(ies[..], offset, length - 4 * (l.count - 1), 2 + l.countOffset, 8 + l.countOffset);
    SliceOfSlice(ies[..], offset, length - 4 * (l.count - 1), 8 + l.countOffset, |now|);
    CollapsedPieces(was, now, body, l, rest);
    assert now[2..] == ies[offset + 2..length - 4 * (l.count - 1)];
  }

  /** `CollapseElement` in terms of whole elements. */
  method ReplaceElement(ies: array<Byte>, offset: nat, length: nat, l: Layout,
                        ghost e: Element, ghost f: Element, ghost rest: Bytes)
    requires l.count >= 2 && l.Tail() <= |e.body| && offset + 2 <= length <= ies.Length
    requires ies[offset..length] == Write(e) + rest
    requires f.id == e.id && f.body == Collapsed(e.body, l)
    modifies ies
    ensures ies[..offset] == old(ies[..offset]) && ies[length..] == old(ies[length..])
    ensures ies[offset..length - 4 * (l.count - 1)] == Write(f) + rest
  {
    Unwrite(ies[..], offset, length, e, rest);
    CollapseElement(ies, offset, length, l, e.body, rest);
    PrefixShrinks(ies[..], old(ies[..]), offset);
    Rewrite(ies[..], offset, length - 4 * (l.count - 1), f, rest);
  }

  /** One turn of the rewriting loop: the element at `offset` is replaced by its selection. */
  method SelectOne(ies: array<Byte>, offset: nat, length: nat, ghost e: Element, ghost rest: Bytes)
    returns (size: nat, removed: nat)
    requires offset + 2 <= length <= ies.Length
    requires ies[offset..length] == Write(e) + rest
    modifies ies
    ensures size == |Write(e)| && removed <= size && size - removed == |Write(Select(e))|
    ensures ies[..offset] == old(ies[..offset]) && ies[length..] == old(ies[length..])
    ensures ies[offset..length - removed] == Write(Select(e)) + rest
  {
    Unwrite(ies[..], offset, length, e, rest);
    size := ies[offset + 1] as nat + 2;
    SliceOfSlice(ies[..], offset + 2, length, 0, size - 2);
    assert ies[offset + 2..offset + size] == e.body;
    var l := Inspect(ies, ies[offset], offset + 2, size - 2, e);
    removed := 0;
    if l.Some? {
      removed := 4 * (l.value.count - 1);
      ReplaceElement(ies, offset, length, l.value, e, Select(e), rest);
    }
  }

  lemma PrefixShrinks(a: Bytes, b: Bytes, n: nat)
    requires n < |a| && n < |b| && a[..n + 1] == b[..n + 1]
    ensures a[..n] == b[..n] && a[n] == b[n]
  {
    assert a[n] == a[..n + 1][n] && b[n] == b[..n + 1][n];
    forall i | 0 <= i < n ensures a[i] == b[i] {
      assert a[i] == a[..n + 1][i] && b[i] == b[..n + 1][i];
    }
  }

  lemma Unwrite(a: Bytes, at: nat, end: nat, e: Element, rest: Bytes)
    requires at + 2 <= end <= |a| && a[at..end] == Write(e) + rest
    ensures a[at] == e.id && a[at + 1] as int == |e.body|
    ensures a[at + 2..end] == e.body + rest && (e.body + rest)[0..|e.body|] == e.body
  {
    var b := a[at..end];
    assert b[0] == e.id && b[1] == |e.body| as Byte;
    SliceOfSlice(a, at, end, 2, end - at);
    assert b[2..end - at] == e.body + rest;
  }

  lemma Rewrite(a: Bytes, at: nat, end: nat, e: Element, rest: Bytes)
    requires at + 2 <= end <= |a|
    requires a[at] == e.id && a[at + 1] as int == |e.body| && a[at + 2..end] == e.body + rest
    ensures a[at..end] == Write(e) + rest
  {
    assert a[at..end] == [a[at], a[at + 1]] + a[at + 2..end];
  }

  lemma SplitAt(a: Bytes, x: Bytes, y: Bytes)
    requires a == x + y
    ensures a[..|x|] == x && a[|x|..] == y
  {
  }

  /** `SelectOne` in terms of the whole buffer. */
  method SelectNext(ies: array<Byte>, offset: nat, r: nat, length: nat,
                    ghost before: Bytes, ghost e: Element, ghost rest: Bytes)
    returns (size: nat, removed: nat)
    requires offset + 2 <= r <= length <= ies.Length
    requires ies[..offset] == before && ies[offset..r] == Write(e) + rest
    modifies ies
    ensures size == |Write(e)| && removed <= size && offset + size <= r
    ensures ies[..offset + (size - removed)] == before + Write(Select(e))
    ensures ies[offset + (size - removed)..r - removed] == rest
    ensures ies[length..] == old(ies[length..])
  {
    ghost var beyond := ies[r..];
    assert ies[length..] == beyond[length - r..];
    size, removed := SelectOne(ies, offset, r, e, rest);
    assert ies[length..] == ies[r..][length - r..];
    SplitAt(ies[offset..r - removed], Write(Select(e)), rest);
    assert ies[..offset + (size - removed)] == before + ies[offset..r - removed][..size - removed];
    assert ies[offset + (size - removed)..r - removed] == ies[offset..r - removed][size - removed..];
  }

  /** Rewrites a scan-message copy in place: the bytes that remain are the specified
      stream, and nothing at or past the original length is written. */
  method SelectWPA2TransitionMode(ies: array?<Byte>, length: nat) returns (r: nat)
    requires ies != null ==> length <= ies.Length
    modifies ies
    ensures ies == null ==> r == length
    ensures ies != null ==> r <= length && ies[..r] == SelectStream(old(ies[..length]))
    ensures ies != null ==> ies[length..] == old(ies[length..])
  {
    var ok := ValidIEs(ies, length);
    if !ok {
      return length;
    }
    ghost var es := Parse(ies[..length]).value;
    WriteAllOfParse(ies[..length]);
    r := SelectLoop(ies, length, es);
  }

  method SelectLoop(ies: array<Byte>, length: nat, ghost es: seq<Element>) returns (r: nat)
    requires length <= ies.Length && ies[..length] == WriteAll(es)
    modifies ies
    ensures r <= length && ies[..r] == WriteAll(SelectAll(es))
    ensures ies[length..] == old(ies[length..])
  {
    r := length;
    var offset := 0;
    ghost var done := 0;
    assert es[0..] == es && SelectAll(es[..0]) == [];
    assert ies[0..r] == ies[..length];
    while offset < r
      invariant 0 <= offset <= r <= length && 0 <= done <= |es|
      invariant ies[..offset] == WriteAll(SelectAll(es[..done]))
      invariant ies[offset..r] == WriteAll(es[done..])
      invariant ies[length..] == old(ies[length..])
      decreases r - offset
    {
      assert done < |es|;
      NextSelected(es, done);
      var size, removed := SelectNext(ies, offset, r, length, ies[..offset], es[done], WriteAll(es[done + 1..]));
      offset, r := offset + (size - removed), r - removed;
      done := done + 1;
    }
    AllDone(es, done);
  }

  lemma AllDone(es: seq<Element>, done: nat)
    requires done <= |es| && WriteAll(es[done..]) == []
    ensures es[..done] == es
  {
    EmptyStream(es[done..]);
  }

  lemma EmptyStream(es: seq<Element>)
    requires WriteAll(es) == []
    ensures es == []
  {
  }
}
