/** The tagged lists of signal and cell information: how the observer proxy writes them into a
    parcel, and how the observer and the service stub read them back. A parcel is a sequence of
    words; what an element writes after its tag is an assumed inner codec. */
module ListCodec {
  import opened Records

  datatype Element = Element(tag: int, body: seq<int>)

  /** The tags a parser knows, and how many words reading the body of a tag takes off what follows. */
  datatype Codec = Codec(known: set<int>, width: (int, seq<int>) -> nat)

  /** The inner codec's own promise: reading a body takes exactly what writing it produced, whatever
      follows it in the parcel. */
  ghost predicate SelfDelimiting(c: Codec, e: Element) {
    forall rest: seq<int> :: c.width(e.tag, e.body + rest) == |e.body|
  }

  ghost predicate Codable(c: Codec, es: seq<Element>) {
    forall i :: 0 <= i < |es| && es[i].tag in c.known ==> SelfDelimiting(c, es[i])
  }

  predicate AllKnown(c: Codec, es: seq<Element>) {
    forall i :: 0 <= i < |es| ==> es[i].tag in c.known
  }

  function Encode(es: seq<Element>): seq<int> {
    if es == [] then [] else [es[0].tag] + es[0].body + Encode(es[1..])
  }

  /** Reading a word past the end yields 0 and moves nothing. */
  function Head(words: seq<int>): int {
    if words == [] then 0 else words[0]
  }

  function Tail(words: seq<int>): seq<int> {
    if words == [] then [] else words[1..]
  }

  function WordsTaken(c: Codec, tag: int, words: seq<int>): (n: nat)
    ensures n <= |words|
  {
    if c.width(tag, words) < |words| then c.width(tag, words) else |words|
  }

  /** Reads one tag, and the body after it when the tag is known: the element read, if any, and what is
      left of the parcel. The body of an unknown tag is not skipped. */
  function Next(c: Codec, words: seq<int>): (r: (seq<Element>, seq<int>))
    ensures |r.0| <= 1 && AllKnown(c, r.0)
  {
    var tag, rest := Head(words), Tail(words);
    if tag in c.known then ([Element(tag, rest[..WordsTaken(c, tag, rest)])], rest[WordsTaken(c, tag, rest)..])
    else ([], rest)
  }

  /** Reads n tags: the elements read, and what is left of the parcel. */
  function Parse(c: Codec, words: seq<int>, n: nat): (r: (seq<Element>, seq<int>))
    ensures |r.0| <= n && AllKnown(c, r.0)
  {
    if n == 0 then ([], words)
    else
      var first := Next(c, words);
      var more := Parse(c, first.1, n - 1);
      (first.0 + more.0, more.1)
  }

  lemma Assoc<T>(a: seq<T>, b: seq<T>, c: seq<T>)
    ensures a + (b + c) == (a + b) + c
  {
  }

  lemma Empty<T>(s: seq<T>)
    ensures [] + s == s == s + []
  {
  }

  lemma ConsSlices<T>(s: seq<T>, n: nat)
    requires 0 < n <= |s|
    ensures [s[0]] + s[1..] == s && [s[0]] + s[1..][..n - 1] == s[..n] && s[1..][n - 1..] == s[n..]
  {
  }

  // ---------------------------------------------------------------- parsing what was written

  lemma EncodeCons(e: Element, es: seq<Element>)
    ensures Encode([e] + es) == [e.tag] + e.body + Encode(es)
  {
    assert ([e] + es)[1..] == es;
  }

  /** A known, well-coded element is read back whole. */
  lemma NextIs(c: Codec, e: Element, rest: seq<int>)
    requires e.tag in c.known && SelfDelimiting(c, e)
    ensures Next(c, [e.tag] + e.body + rest) == ([e], rest)
  {
    var words := [e.tag] + e.body + rest;
    assert Tail(words) == e.body + rest;
    assert c.width(e.tag, e.body + rest) == |e.body|;
    assert (e.body + rest)[|e.body|..] == rest && (e.body + rest)[..|e.body|] == e.body;
  }

  lemma TailCodable(c: Codec, es: seq<Element>)
    requires es != [] && AllKnown(c, es) && Codable(c, es)
    ensures SelfDelimiting(c, es[0]) && AllKnown(c, es[1..]) && Codable(c, es[1..])
  {
    assert SelfDelimiting(c, es[0]);
    forall i | 0 <= i < |es[1..]|
      ensures es[1..][i].tag in c.known && SelfDelimiting(c, es[1..][i])
    {
      assert es[1..][i] == es[i + 1] && SelfDelimiting(c, es[i + 1]);
    }
  }

  /** The first element of a coded list of known types is read off the front. */
  lemma NextOfList(c: Codec, es: seq<Element>, rest: seq<int>)
    requires es != [] && AllKnown(c, es) && Codable(c, es)
    ensures Next(c, Encode(es) + rest) == ([es[0]], Encode(es[1..]) + rest)
    ensures AllKnown(c, es[1..]) && Codable(c, es[1..])
  {
    TailCodable(c, es);
    Assoc([es[0].tag] + es[0].body, Encode(es[1..]), rest);
    NextIs(c, es[0], Encode(es[1..]) + rest);
  }

  lemma ParseStep(c: Codec, words: seq<int>, n: nat, first: seq<Element>, rest: seq<int>)
    requires n > 0 && Next(c, words) == (first, rest)
    ensures Parse(c, words, n) == (first + Parse(c, rest, n - 1).0, Parse(c, rest, n - 1).1)
  {
  }

  /** Reading n elements of a coded list of known types gives the first n. */
  lemma {:induction false} ParsePrefix(c: Codec, es: seq<Element>, rest: seq<int>, n: nat)
    requires AllKnown(c, es) && Codable(c, es) && n <= |es|
    ensures Parse(c, Encode(es) + rest, n) == (es[..n], Encode(es[n..]) + rest)
  {
    if n > 0 {
      var more := es[1..];
      NextOfList(c, es, rest);
      ParseStep(c, Encode(es) + rest, n, [es[0]], Encode(more) + rest);
      ParsePrefix(c, more, rest, n - 1);
      ConsSlices(es, n);
    }
  }

  /** Reading m + n elements is reading m, then n from where that stopped. */
  lemma {:induction false} ParseThen(c: Codec, words: seq<int>, m: nat, n: nat, first: seq<Element>, left: seq<int>)
    requires Parse(c, words, m) == (first, left)
    ensures Parse(c, words, m + n) == (first + Parse(c, left, n).0, Parse(c, left, n).1)
    decreases m
  {
    var last := Parse(c, left, n).0;
    if m == 0 {
      Empty(last);
    } else {
      var next := Next(c, words);
      var more := Parse(c, next.1, m - 1).0;
      ParseThen(c, next.1, m - 1, n, more, left);
      ParseStep(c, words, m + n, next.0, next.1);
      Assoc(next.0, more, last);
    }
  }

  lemma ParseWhole(c: Codec, es: seq<Element>, rest: seq<int>)
    requires AllKnown(c, es) && Codable(c, es)
    ensures Parse(c, Encode(es) + rest, |es|) == (es, rest)
  {
    ParsePrefix(c, es, rest, |es|);
    assert es[..|es|] == es && es[|es|..] == [];
    Empty(rest);
  }

  /** Reading past a coded list of known types goes on with what follows it. */
  lemma ParsePast(c: Codec, es: seq<Element>, rest: seq<int>, n: nat)
    requires AllKnown(c, es) && Codable(c, es)
    ensures Parse(c, Encode(es) + rest, |es| + n) == (es + Parse(c, rest, n).0, Parse(c, rest, n).1)
  {
    ParseWhole(c, es, rest);
    ParseThen(c, Encode(es) + rest, |es|, n, es, rest);
  }

  /** The list comes back, and the parcel is consumed, exactly when every element's type is known to
      the parser. */
  lemma ListRoundTrip(c: Codec, es: seq<Element>, rest: seq<int>)
    requires Codable(c, es)
    ensures AllKnown(c, es) ==> Parse(c, Encode(es) + rest, |es|) == (es, rest)
    ensures Parse(c, Encode(es) + rest, |es|).0 == es <==> AllKnown(c, es)
  {
    if AllKnown(c, es) {
      ParseWhole(c, es, rest);
    }
  }

  lemma {:induction false} EncodeConcat(a: seq<Element>, b: seq<Element>)
    ensures Encode(a + b) == Encode(a) + Encode(b)
    decreases |a|
  {
    if a == [] {
      assert a + b == b;
    } else {
      var e, rest := a[0], a[1..];
      var head := [e.tag] + e.body;
      EncodeConcat(rest, b);
      Assoc([e], rest, b);
      assert a == [e] + rest;
      EncodeCons(e, rest + b);
      Assoc(head, Encode(rest), Encode(b));
    }
  }

  lemma StartsWith(c: Codec, before: seq<Element>, rest: seq<int>, n: nat)
    requires AllKnown(c, before) && Codable(c, before)
    ensures before <= Parse(c, Encode(before) + rest, |before| + n).0
  {
    ParsePast(c, before, rest, n);
  }

  lemma SplitWords(before: seq<Element>, others: seq<Element>, rest: seq<int>)
    ensures Encode(before + others) + rest == Encode(before) + (Encode(others) + rest)
  {
    EncodeConcat(before, others);
    Assoc(Encode(before), Encode(others), rest);
  }

  /** With an element of an unknown type, what is read still starts with exactly the elements before
      it, and has at most as many elements as were announced. */
  lemma UnknownTypeKeepsPrefix(c: Codec, before: seq<Element>, odd: Element, after: seq<Element>, rest: seq<int>)
    requires AllKnown(c, before) && Codable(c, before) && odd.tag !in c.known
    ensures var es := before + ([odd] + after);
            before <= Parse(c, Encode(es) + rest, |es|).0
            && |Parse(c, Encode(es) + rest, |es|).0| <= |es|
            && Parse(c, Encode(es) + rest, |es|).0 != es
  {
    var others := [odd] + after;
    var es := before + others;
    SplitWords(before, others, rest);
    StartsWith(c, before, Encode(others) + rest, |others|);
    assert es[|before|] == odd;
  }

  lemma EncodeNext(es: seq<Element>, i: nat)
    requires i < |es|
    ensures Encode(es[..i + 1]) == Encode(es[..i]) + ([es[i].tag] + es[i].body)
  {
    assert es[..i + 1] == es[..i] + [es[i]];
    EncodeConcat(es[..i], [es[i]]);
    EncodeCons(es[i], []);
    Empty(es[i].body);
    assert [es[i]] + [] == [es[i]];
  }

  // ---------------------------------------------------------------- the parcel

  class MessageParcel {
    var words: seq<int>
    var cursor: nat

    predicate Valid()
      reads this
    {
      cursor <= |words|
    }

    /** What has not been read yet. */
    function Unread(): seq<int>
      requires Valid()
      reads this
    {
      words[cursor..]
    }

    constructor ()
      ensures Valid() && words == [] && cursor == 0
    {
      words, cursor := [], 0;
    }

    method WriteInt32(v: int)
      requires Valid()
      modifies `words
      ensures Valid() && words == old(words) + [v]
    {
      words := words + [v];
    }

    method Marshalling(e: Element)
      requires Valid()
      modifies `words
      ensures Valid() && words == old(words) + [e.tag] + e.body
    {
      words := words + [e.tag] + e.body;
    }

    method ReadInt32() returns (v: int)
      requires Valid()
      modifies `cursor
      ensures Valid() && v == Head(old(Unread())) && Unread() == Tail(old(Unread()))
    {
      if cursor == |words| {
        return 0;
      }
      v := words[cursor];
      cursor := cursor + 1;
    }

    method ReadFromParcel(c: Codec, tag: int) returns (e: Element)
      requires Valid()
      modifies `cursor
      ensures Valid()
      ensures var k := WordsTaken(c, tag, old(Unread()));
              e == Element(tag, old(Unread())[..k]) && Unread() == old(Unread())[k..]
    {
      var k := WordsTaken(c, tag, Unread());
      e := Element(tag, Unread()[..k]);
      cursor := cursor + k;
    }
  }

  // ---------------------------------------------------------------- the proxy

  /** The two lists differ in their size limit, and in that an empty cell list is not sent. */
  datatype Limits = Limits(max: int, sendsEmpty: bool)

  predicate Sendable(lim: Limits, es: seq<Element>) {
    |es| <= lim.max && (es == [] ==> lim.sendsEmpty)
  }

  /** Writes slot, size and elements; answers whether the request is sent. */
  method WriteList(lim: Limits, slot: int, es: seq<Element>, p: MessageParcel) returns (sent: bool)
    requires p.Valid() && p.words == []
    modifies p
    ensures p.Valid() && p.cursor == old(p.cursor)
    ensures sent <==> |es| <= lim.max && (es == [] ==> lim.sendsEmpty)
    ensures sent ==> p.words == [slot, |es|] + Encode(es)
  {
    if |es| > lim.max || (|es| <= 0 && !lim.sendsEmpty) {
      return false;
    }
    p.WriteInt32(slot);
    p.WriteInt32(|es|);
    for i := 0 to |es|
      invariant p.Valid() && p.cursor == old(p.cursor)
      invariant p.words == [slot, |es|] + Encode(es[..i])
    {
      EncodeNext(es, i);
      p.Marshalling(es[i]);
    }
    assert es[..|es|] == es;
    sent := true;
  }

  // ---------------------------------------------------------------- the two parsers

  const OBSERVER_MAX := 100

  function Clamped(size: int): nat {
    if size > OBSERVER_MAX then OBSERVER_MAX else if size < 0 then 0 else size
  }

  /** What the observer makes of a size and the words after it. */
  function ObserverParse(c: Codec, size: int, words: seq<int>): (seq<Element>, seq<int>) {
    Parse(c, words, Clamped(size))
  }

  /** What the stub makes of them: too large a size counts as 0, and a size below the smallest one
      accepted is refused before anything is parsed. */
  function StubParse(c: Codec, lim: Limits, size: int, words: seq<int>): Option<(seq<Element>, seq<int>)> {
    var taken := if size > lim.max then 0 else size;
    if taken < 0 || (taken == 0 && !lim.sendsEmpty) then None else Some(Parse(c, words, taken))
  }

  /** One turn of the loop: the `switch` over the tag. */
  method ReadElement(c: Codec, p: MessageParcel) returns (read: seq<Element>)
    requires p.Valid()
    modifies p
    ensures p.Valid() && p.words == old(p.words)
    ensures (read, p.Unread()) == Next(c, old(p.Unread()))
  {
    read := [];
    var tag := p.ReadInt32();
    if tag in c.known {
      var e := p.ReadFromParcel(c, tag);
      read := [e];
    }
  }

  /** The loop both parsers share in shape. */
  method ReadElements(c: Codec, size: int, p: MessageParcel) returns (result: seq<Element>)
    requires p.Valid()
    modifies p
    ensures p.Valid() && p.words == old(p.words)
    ensures (result, p.Unread()) == Parse(c, old(p.Unread()), if size < 0 then 0 else size)
  {
    result := [];
    if size < 0 {
      return;
    }
    ghost var whole, left := Parse(c, p.Unread(), size), Parse(c, p.Unread(), size);
    Empty(whole.0);
    for i := 0 to size
      invariant p.Valid() && p.words == old(p.words)
      invariant left == Parse(c, p.Unread(), size - i) && whole == (result + left.0, left.1)
    {
      ghost var before := p.Unread();
      var read := ReadElement(c, p);
      ParseStep(c, before, size - i, read, p.Unread());
      left := Parse(c, p.Unread(), size - i - 1);
      Assoc(result, read, left.0);
      result := result + read;
    }
    Empty(result);
  }

  method ObserverReads(c: Codec, p: MessageParcel) returns (slot: int, result: seq<Element>)
    requires p.Valid()
    modifies p
    ensures p.Valid() && slot == Head(old(p.Unread()))
    ensures var body := Tail(old(p.Unread()));
            (result, p.Unread()) == ObserverParse(c, Head(body), Tail(body))
  {
    slot := p.ReadInt32();
    var size := p.ReadInt32();
    size := if size > OBSERVER_MAX then OBSERVER_MAX else size;
    result := ReadElements(c, size, p);
  }

  method StubReads(c: Codec, lim: Limits, p: MessageParcel) returns (slot: int, result: Option<seq<Element>>)
    requires p.Valid()
    modifies p
    ensures p.Valid() && slot == Head(old(p.Unread()))
    ensures var body := Tail(old(p.Unread()));
            match StubParse(c, lim, Head(body), Tail(body))
            case None => result == None && p.Unread() == Tail(body)
            case Some(r) => result == Some(r.0) && p.Unread() == r.1
  {
    slot := p.ReadInt32();
    var size := p.ReadInt32();
    size := if size > lim.max then 0 else size;
    if size < 0 || (size == 0 && !lim.sendsEmpty) {
      return slot, None;
    }
    var es := ReadElements(c, size, p);
    result := Some(es);
  }

  // ---------------------------------------------------------------- end to end

  /** What the observer makes of the parcel of a sent list, after the slot. */
  function Received(c: Codec, slot: int, es: seq<Element>): (seq<Element>, seq<int>) {
    var words := [slot, |es|] + Encode(es);
    ObserverParse(c, Head(Tail(words)), Tail(Tail(words)))
  }

  /** A list the proxy sends comes back whole, with the parcel consumed, exactly when all its types
      are known and it has at most 100 elements; a longer list of known types loses just what is past
      the first 100. */
  lemma SentListsAreReceived(c: Codec, lim: Limits, slot: int, es: seq<Element>)
    requires Codable(c, es) && Sendable(lim, es)
    ensures Received(c, slot, es) == (es, []) <==> AllKnown(c, es) && |es| <= 100
    ensures AllKnown(c, es) && |es| > 100 ==> Received(c, slot, es).0 == es[..100]
    ensures lim.max <= 100 ==> (Received(c, slot, es) == (es, []) <==> AllKnown(c, es))
  {
    var words := [slot, |es|] + Encode(es);
    assert Tail(words) == [|es|] + Encode(es) && Tail(Tail(words)) == Encode(es);
    assert Encode(es) + [] == Encode(es);
    ListRoundTrip(c, es, []);
    if AllKnown(c, es) && |es| > OBSERVER_MAX {
      ParsePrefix(c, es, [], OBSERVER_MAX);
    }
  }

  function Copies(tag: int, n: nat): seq<int> {
    seq(n, _ => tag)
  }

  lemma {:induction false} UnknownTagsAreSkipped(c: Codec, tag: int, n: nat, m: nat)
    requires tag !in c.known && m <= n
    ensures Parse(c, Copies(tag, n), m) == ([], Copies(tag, n - m))
  {
    if m > 0 {
      assert Tail(Copies(tag, n)) == Copies(tag, n - 1);
      UnknownTagsAreSkipped(c, tag, n - 1, m - 1);
    }
  }

  predicate SizeInRange(lim: Limits, size: int) {
    0 <= size <= lim.max && size <= OBSERVER_MAX && (size == 0 ==> lim.sendsEmpty)
  }

  /** The stub and the observer read the same list from all equal bytes, and stop at the same word,
      exactly when the announced size is in range for both. */
  lemma ParsersAgree(c: Codec, lim: Limits, size: int, tag: int)
    requires tag !in c.known && lim.max >= 0
    ensures (forall words :: StubParse(c, lim, size, words) == Some(ObserverParse(c, size, words))) <==>
            SizeInRange(lim, size)
  {
    if !SizeInRange(lim, size) && size > 0 {
      var words := Copies(tag, size);
      UnknownTagsAreSkipped(c, tag, size, Clamped(size));
      UnknownTagsAreSkipped(c, tag, size, if size > lim.max then 0 else size);
      assert StubParse(c, lim, size, words) != Some(ObserverParse(c, size, words));
    } else {
      assert !SizeInRange(lim, size) ==> StubParse(c, lim, size, []) == None;
    }
  }
}
