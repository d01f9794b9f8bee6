/** Stripe's webhook signature: the header `sign` prints and the check
    `verify_signature` makes. The keyed hash is a parameter. */
module Signature {
  import opened Text

  const TOLERANCE_S := 300.0

  /** `HMAC-SHA256(secret, message)` in hexadecimal. */
  type Mac = (string, string) -> string

  /** `TypeErrorRaised`: comparing digests rejects a string that is not ASCII. */
  datatype Verdict = Accepted | Missing | Malformed | OutsideTolerance | Mismatch | TypeErrorRaised

  datatype Pair = Pair(key: string, value: string)

  predicate Ascii(s: string) {
    forall i :: 0 <= i < |s| ==> s[i] as int < 128
  }

  /** The hash prints as hexadecimal digits. */
  ghost predicate Hexadecimal(mac: Mac) {
    forall k, m, i :: 0 <= i < |mac(k, m)| ==> '0' <= mac(k, m)[i] <= '9' || 'a' <= mac(k, m)[i] <= 'f'
  }

  function Message(ts: int, payload: string): string {
    Decimal(ts) + "." + payload
  }

  function Sign(mac: Mac, payload: string, secret: string, ts: int): string {
    "t=" + Decimal(ts) + ",v1=" + mac(secret, Message(ts, payload))
  }

  /** An element cut at its first "="; nothing if it has none. */
  function Cut(e: string): seq<Pair> {
    var i := IndexOf(e, '=');
    if i < |e| then [Pair(e[..i], e[i + 1..])] else []
  }

  function Pairs(elements: seq<string>): seq<Pair> {
    if elements == [] then [] else Cut(elements[0]) + Pairs(elements[1..])
  }

  /** `dict(...).get(key, "")`: the last value wins. */
  function LastValue(pairs: seq<Pair>, key: string): string {
    if pairs == [] then ""
    else if pairs[|pairs| - 1].key == key then pairs[|pairs| - 1].value
    else LastValue(pairs[..|pairs| - 1], key)
  }

  function Values(pairs: seq<Pair>, key: string): seq<string> {
    if pairs == [] then []
    else (if pairs[0].key == key then [pairs[0].value] else []) + Values(pairs[1..], key)
  }

  /** Compare with each candidate in turn and stop at the first that matches. */
  function Check(expected: string, candidates: seq<string>): Verdict {
    if candidates == [] then Mismatch
    else if !Ascii(candidates[0]) then TypeErrorRaised
    else if candidates[0] == expected then Accepted
    else Check(expected, candidates[1..])
  }

  function Distance(now: real, ts: int): real {
    if now >= ts as real then now - ts as real else ts as real - now
  }

  function Verify(mac: Mac, payload: string, header: Option<string>, secret: string, now: real): Verdict {
    if header == None || header.value == "" || secret == "" then Missing
    else
      var pairs := Pairs(Split(header.value, ','));
      match ParseInt(LastValue(pairs, "t"))
      case None => Malformed
      case Some(ts) =>
        if Distance(now, ts) > TOLERANCE_S then OutsideTolerance
        else Check(mac(secret, Message(ts, payload)), Values(pairs, "v1"))
  }

  // --- What acceptance means ----------------------------------------------------------------

  /** The signature is among the candidates, and everything before it is ASCII. */
  ghost predicate FoundFirst(expected: string, candidates: seq<string>, k: nat) {
    && k < |candidates| && candidates[k] == expected
    && forall i :: 0 <= i <= k ==> Ascii(candidates[i])
  }

  ghost predicate Found(expected: string, candidates: seq<string>) {
    exists k: nat :: FoundFirst(expected, candidates, k)
  }

  lemma {:induction false} CheckAccepts(expected: string, candidates: seq<string>)
    ensures Check(expected, candidates) == Accepted <==> Found(expected, candidates)
  {
    if candidates != [] {
      var rest := candidates[1..];
      CheckAccepts(expected, rest);
      if Ascii(candidates[0]) {
        if candidates[0] == expected {
          assert FoundFirst(expected, candidates, 0);
        } else {
          if k: nat :| FoundFirst(expected, rest, k) {
            assert FoundFirst(expected, candidates, k + 1);
          }
          if k: nat :| FoundFirst(expected, candidates, k) {
            assert FoundFirst(expected, rest, k - 1);
          }
        }
      }
    }
  }

  /** What is hashed and what is in time, written out. */
  lemma HashedText(ts: int, payload: string, now: real)
    ensures Message(ts, payload) == Decimal(ts) + "." + payload
    ensures Distance(now, ts) <= TOLERANCE_S <==> -300.0 <= now - ts as real <= 300.0
  {
  }

  /** A header is accepted exactly if it and the secret are not empty, its last `t` is an
      integer no more than 300 seconds from now, and some `v1` is the hash of that number, a
      dot and the payload, with no non-ASCII `v1` before it. The other verdicts tell which of
      these failed first. */
  lemma AcceptedExactly(mac: Mac, payload: string, header: string, secret: string, now: real)
    ensures var pairs := Pairs(Split(header, ','));
            var ts := ParseInt(LastValue(pairs, "t"));
            var verdict := Verify(mac, payload, Some(header), secret, now);
            && (verdict == Accepted <==>
                  && header != "" && secret != "" && ts.Some? && -300.0 <= now - ts.value as real <= 300.0
                  && Found(mac(secret, Decimal(ts.value) + "." + payload), Values(pairs, "v1")))
            && (verdict == Missing <==> header == "" || secret == "")
            && (verdict == Malformed <==> header != "" && secret != "" && ts == None)
            && (verdict == OutsideTolerance <==>
                  header != "" && secret != "" && ts.Some? && !(-300.0 <= now - ts.value as real <= 300.0))
  {
    hide Pairs, Split, ParseInt, LastValue, Values, Message, Found, Distance;
    var pairs := Pairs(Split(header, ','));
    var ts := ParseInt(LastValue(pairs, "t"));
    if ts.Some? {
      HashedText(ts.value, payload, now);
      CheckAccepts(mac(secret, Message(ts.value, payload)), Values(pairs, "v1"));
      CheckVerdicts(mac(secret, Message(ts.value, payload)), Values(pairs, "v1"));
    }
  }

  lemma {:induction false} CheckVerdicts(expected: string, candidates: seq<string>)
    ensures Check(expected, candidates) in {Accepted, Mismatch, TypeErrorRaised}
  {
    if candidates != [] {
      CheckVerdicts(expected, candidates[1..]);
    }
  }

  // --- What is accepted: the printed header, with other elements around its own ------------------

  lemma PairsCons(e: string, elements: seq<string>)
    ensures Pairs([e] + elements) == Cut(e) + Pairs(elements)
  {
    hide Cut;
    assert ([e] + elements)[1..] == elements;
  }

  lemma PairsNone()
    ensures Pairs([]) == []
  {
  }

  lemma {:induction false} PairsConcat(a: seq<string>, b: seq<string>)
    ensures Pairs(a + b) == Pairs(a) + Pairs(b)
  {
    hide Cut, Pairs;
    if a == [] {
      assert a + b == b;
      PairsNone();
    } else {
      var first, rest := [a[0]], a[1..];
      assert a == first + rest && a + b == first + (rest + b);
      PairsCons(a[0], rest);
      PairsCons(a[0], rest + b);
      PairsConcat(rest, b);
    }
  }

  lemma ValuesCons(p: Pair, pairs: seq<Pair>, key: string)
    ensures Values([p] + pairs, key) == (if p.key == key then [p.value] else []) + Values(pairs, key)
  {
    assert ([p] + pairs)[1..] == pairs;
  }

  lemma ValuesNone(key: string)
    ensures Values([], key) == []
  {
  }

  lemma {:induction false} ValuesConcat(a: seq<Pair>, b: seq<Pair>, key: string)
    ensures Values(a + b, key) == Values(a, key) + Values(b, key)
  {
    hide Values;
    if a == [] {
      assert a + b == b;
      ValuesNone(key);
    } else {
      var first, rest := [a[0]], a[1..];
      assert a == first + rest && a + b == first + (rest + b);
      ValuesCons(a[0], rest, key);
      ValuesCons(a[0], rest + b, key);
      ValuesConcat(rest, b, key);
    }
  }

  /** An element is read as the pair around its first "=", or not at all without one. */
  lemma ElementReads(key: string, value: string, plain: string)
    requires '=' !in key && '=' !in plain
    ensures Pairs([key + "=" + value]) == [Pair(key, value)] && Pairs([plain]) == []
  {
    PairOf(key, value);
    IndexOfNone(plain, '=');
    assert [plain][1..] == [];
  }

  /** Of several elements with the same key the last one counts. */
  lemma LastCounts(a: seq<Pair>, p: Pair, b: seq<Pair>)
    requires forall i :: 0 <= i < |b| ==> b[i].key != p.key
    ensures LastValue(a + [p] + b, p.key) == p.value
    ensures LastValue(b, p.key) == ""
  {
    hide LastValue;
    LastAdded(a, p);
    LastValueSkips(a + [p], b, p.key);
    LastValueSkips([], b, p.key);
    assert [] + b == b;
    NoValue(p.key);
  }

  lemma NoValue(key: string)
    ensures LastValue([], key) == ""
  {
  }

  lemma {:induction false} LastValueSkips(a: seq<Pair>, b: seq<Pair>, key: string)
    requires forall i :: 0 <= i < |b| ==> b[i].key != key
    ensures LastValue(a + b, key) == LastValue(a, key)
  {
    if b == [] {
      assert a + b == a;
    } else {
      assert (a + b)[..|a + b| - 1] == a + b[..|b| - 1];
      LastValueSkips(a, b[..|b| - 1], key);
    }
  }

  lemma PairOf(key: string, value: string)
    requires '=' !in key
    ensures Pairs([key + "=" + value]) == [Pair(key, value)]
  {
    var e := key + "=" + value;
    IndexOfLead(key, value, '=');
    assert e == key + ['='] + value;
    assert e[..|key|] == key && e[|key| + 1..] == value;
    var es := [e];
    assert Pairs(es[1..]) == [];
  }

  /** Elements other than a timestamp, without commas. */
  ghost predicate Extra(elements: seq<string>) {
    && (forall i :: 0 <= i < |elements| ==> ',' !in elements[i])
    && (forall i :: 0 <= i < |Pairs(elements)| ==> Pairs(elements)[i].key != "t")
  }

  /** A header holding the timestamp and signature of `sign` among extra elements. */
  function Framed(pre: seq<string>, t: string, mid: seq<string>, v1: string, post: seq<string>): seq<string> {
    pre + ["t=" + t] + mid + ["v1=" + v1] + post
  }

  lemma FramedPairs(pre: seq<string>, t: string, mid: seq<string>, v1: string, post: seq<string>)
    ensures Pairs(Framed(pre, t, mid, v1, post))
         == Pairs(pre) + [Pair("t", t)] + Pairs(mid) + [Pair("v1", v1)] + Pairs(post)
  {
    hide Pairs;
    PairOf("t", t);
    PairOf("v1", v1);
    assert "t" + "=" + t == "t=" + t && "v1" + "=" + v1 == "v1=" + v1;
    PairsConcat(pre, ["t=" + t]);
    PairsConcat(pre + ["t=" + t], mid);
    PairsConcat(pre + ["t=" + t] + mid, ["v1=" + v1]);
    PairsConcat(pre + ["t=" + t] + mid + ["v1=" + v1], post);
  }

  lemma LastRead(a: seq<Pair>, pt: Pair, b: seq<Pair>, pv: Pair, c: seq<Pair>)
    requires pv.key != pt.key
    requires (forall i :: 0 <= i < |b| ==> b[i].key != pt.key) && (forall i :: 0 <= i < |c| ==> c[i].key != pt.key)
    ensures LastValue(a + [pt] + b + [pv] + c, pt.key) == pt.value
  {
    hide LastValue;
    LastAdded(a, pt);
    LastValueSkips(a + [pt], b, pt.key);
    LastValueSkips(a + [pt] + b, [pv], pt.key);
    LastValueSkips(a + [pt] + b + [pv], c, pt.key);
  }

  lemma LastAdded(a: seq<Pair>, p: Pair)
    ensures LastValue(a + [p], p.key) == p.value
  {
  }

  lemma ValuesRead(a: seq<Pair>, t: string, b: seq<Pair>, v1: string, c: seq<Pair>)
    ensures Values(a + [Pair("t", t)] + b + [Pair("v1", v1)] + c, "v1")
         == Values(a, "v1") + Values(b, "v1") + [v1] + Values(c, "v1")
  {
    var pt, pv := [Pair("t", t)], [Pair("v1", v1)];
    assert |"v1"| != |"t"|;
    assert Values(pt, "v1") == [] && Values(pv, "v1") == [v1];
    hide Values;
    ValuesConcat(a + pt + b + pv, c, "v1");
    ValuesConcat(a + pt + b, pv, "v1");
    ValuesConcat(a + pt, b, "v1");
    ValuesConcat(a, pt, "v1");
  }

  lemma FramedReads(pre: seq<string>, t: string, mid: seq<string>, v1: string, post: seq<string>)
    requires Extra(pre) && Extra(mid) && Extra(post)
    ensures var pairs := Pairs(Framed(pre, t, mid, v1, post));
            && LastValue(pairs, "t") == t
            && Values(pairs, "v1")
               == Values(Pairs(pre), "v1") + Values(Pairs(mid), "v1") + [v1] + Values(Pairs(post), "v1")
  {
    hide Pairs, Values, LastValue, Framed;
    FramedPairs(pre, t, mid, v1, post);
    assert |"v1"| != |"t"|;
    LastRead(Pairs(pre), Pair("t", t), Pairs(mid), Pair("v1", v1), Pairs(post));
    ValuesRead(Pairs(pre), t, Pairs(mid), v1, Pairs(post));
  }

  /** No candidate that is not ASCII comes before the first match. */
  ghost predicate NoneRaisesFirst(expected: string, candidates: seq<string>) {
    forall i :: 0 <= i < |candidates| && !Ascii(candidates[i]) ==> expected in candidates[..i]
  }

  /** Looking past the first candidate, when it is ASCII and not the match. */
  lemma RaisesLater(expected: string, first: string, rest: seq<string>)
    requires Ascii(first) && first != expected
    ensures NoneRaisesFirst(expected, [first] + rest) <==> NoneRaisesFirst(expected, rest)
  {
    hide Ascii;
    var a := [first] + rest;
    forall i | 0 <= i < |rest|
      ensures a[i + 1] == rest[i] && (expected in a[..i + 1] <==> expected in rest[..i])
    {
      assert a[..i + 1] == [first] + rest[..i];
    }
    if NoneRaisesFirst(expected, rest) {
      forall i | 0 <= i < |a| && !Ascii(a[i])
        ensures expected in a[..i]
      {
        assert a[i] == rest[i - 1];
      }
    }
    if NoneRaisesFirst(expected, a) {
      forall i | 0 <= i < |rest| && !Ascii(rest[i])
        ensures expected in rest[..i]
      {
        assert a[i + 1] == rest[i];
      }
    }
  }

  /** The first candidate decides at once when it matches or is not ASCII. */
  lemma RaisesFirst(expected: string, first: string, rest: seq<string>)
    ensures first == expected && Ascii(first) ==> NoneRaisesFirst(expected, [first] + rest)
    ensures !Ascii(first) ==> !NoneRaisesFirst(expected, [first] + rest)
  {
    hide Ascii;
    var a := [first] + rest;
    assert a[0] == first && a[..0] == [];
    forall i | 0 < i < |a|
      ensures first in a[..i]
    {
      assert a[..i][0] == first;
    }
  }

  lemma {:induction false} CheckPast(expected: string, a: seq<string>, b: seq<string>)
    requires Ascii(expected)
    ensures Check(expected, a + ([expected] + b))
         == if NoneRaisesFirst(expected, a) then Accepted else TypeErrorRaised
  {
    hide NoneRaisesFirst, Ascii;
    var all := a + ([expected] + b);
    if a == [] {
      assert all[0] == expected;
      NothingRaises(expected);
    } else {
      var rest := a[1..];
      assert a == [a[0]] + rest;
      assert all[0] == a[0] && all[1..] == rest + ([expected] + b);
      RaisesFirst(expected, a[0], rest);
      if Ascii(a[0]) && a[0] != expected {
        RaisesLater(expected, a[0], rest);
        CheckPast(expected, rest, b);
      }
    }
  }

  lemma NothingRaises(expected: string)
    ensures NoneRaisesFirst(expected, [])
  {
  }

  /** The signed timestamp and hash are accepted among any extra elements exactly if the
      clock is within 300 seconds and no non-ASCII `v1` is read before a match; such a
      `v1` makes the comparison raise instead. */
  lemma SignedAmongExtras(mac: Mac, payload: string, secret: string, ts: int, now: real,
                          pre: seq<string>, mid: seq<string>, post: seq<string>)
    requires Hexadecimal(mac) && secret != "" && Extra(pre) && Extra(mid) && Extra(post)
    ensures var v1 := mac(secret, Decimal(ts) + "." + payload);
            var header := Join(Framed(pre, Decimal(ts), mid, v1, post), ',');
            var earlier := Values(Pairs(pre), "v1") + Values(Pairs(mid), "v1");
            Verify(mac, payload, Some(header), secret, now)
            == if !(-300.0 <= now - ts as real <= 300.0) then OutsideTolerance
               else if NoneRaisesFirst(v1, earlier) then Accepted else TypeErrorRaised
  {
    hide Pairs, Split, Join, Framed, Decimal, ParseInt, LastValue, Values, Message, Check;
    hide NoneRaisesFirst, Extra, Ascii, Distance, Hexadecimal;
    HashedText(ts, payload, now);
    var v1 := mac(secret, Message(ts, payload));
    HashPlain(mac, secret, Message(ts, payload));
    var elements := Framed(pre, Decimal(ts), mid, v1, post);
    var earlier, later := Values(Pairs(pre), "v1") + Values(Pairs(mid), "v1"), Values(Pairs(post), "v1");
    DecimalRoundTrip(ts);
    FramedPlain(pre, Decimal(ts), mid, v1, post);
    FramedSome(pre, Decimal(ts), mid, v1, post);
    SplitJoin(elements, ',');
    FramedReads(pre, Decimal(ts), mid, v1, post);
    CheckPast(v1, earlier, later);
    assert earlier + [v1] + later == earlier + ([v1] + later);
  }

  lemma HashPlain(mac: Mac, secret: string, message: string)
    requires Hexadecimal(mac)
    ensures Ascii(mac(secret, message)) && ',' !in mac(secret, message)
  {
  }

  lemma FramedPlain(pre: seq<string>, t: string, mid: seq<string>, v1: string, post: seq<string>)
    requires Extra(pre) && Extra(mid) && Extra(post) && ',' !in t && ',' !in v1
    ensures forall i :: 0 <= i < |Framed(pre, t, mid, v1, post)| ==> ',' !in Framed(pre, t, mid, v1, post)[i]
  {
    var all := Framed(pre, t, mid, v1, post);
    assert forall e :: e in all ==> e in pre || e == "t=" + t || e in mid || e == "v1=" + v1 || e in post;
    forall i | 0 <= i < |all|
      ensures ',' !in all[i]
    {
      assert all[i] in all;
    }
  }

  lemma SignIsFramed(mac: Mac, payload: string, secret: string, ts: int)
    ensures Join(Framed([], Decimal(ts), [], mac(secret, Message(ts, payload)), []), ',')
         == Sign(mac, payload, secret, ts)
  {
    hide Decimal, Message;
    var t, v1 := Decimal(ts), mac(secret, Message(ts, payload));
    var elements := Framed([], t, [], v1, []);
    assert elements == ["t=" + t, "v1=" + v1];
    assert elements[1..] == ["v1=" + v1];
    assert Join(elements[1..], ',') == "v1=" + v1;
    assert Join(elements, ',') == "t=" + t + [','] + ("v1=" + v1);
    assert Sign(mac, payload, secret, ts) == "t=" + t + ",v1=" + v1;
    assert ",v1=" == [','] + "v1=";
  }

  lemma NoElements()
    ensures Extra([]) && Values(Pairs([]), "v1") == []
  {
  }

  /** How the printed header reads. */
  lemma SignReads(mac: Mac, payload: string, secret: string, ts: int)
    requires Hexadecimal(mac)
    ensures var header := Sign(mac, payload, secret, ts);
            var pairs := Pairs(Split(header, ','));
            && header != "" && ParseInt(LastValue(pairs, "t")) == Some(ts)
            && Values(pairs, "v1") == [mac(secret, Message(ts, payload))]
  {
    hide Pairs, Split, Join, Framed, Decimal, ParseInt, LastValue, Values, Message, Extra;
    var t, v1 := Decimal(ts), mac(secret, Message(ts, payload));
    NoElements();
    DecimalRoundTrip(ts);
    HashPlain(mac, secret, Message(ts, payload));
    FramedPlain([], t, [], v1, []);
    SplitJoin(Framed([], t, [], v1, []), ',') by { FramedSome([], t, [], v1, []); }
    FramedReads([], t, [], v1, []);
    SignIsFramed(mac, payload, secret, ts);
  }

  lemma FramedSome(pre: seq<string>, t: string, mid: seq<string>, v1: string, post: seq<string>)
    ensures |Framed(pre, t, mid, v1, post)| >= 2
    ensures Join(Framed(pre, t, mid, v1, post), ',') != ""
  {
  }

  lemma CheckOne(expected: string, v1: string)
    requires Ascii(v1)
    ensures Check(expected, [v1]) == if v1 == expected then Accepted else Mismatch
  {
    var candidates := [v1];
    assert Check(expected, candidates[1..]) == Mismatch;
  }

  /** What `sign` prints for a payload and timestamp, `verify_signature` accepts exactly
      within the tolerance, for the payload and secret it was made with; for any other
      it is a mismatch, unless the hashes collide. */
  lemma SignatureRoundTrip(mac: Mac, payload: string, secret: string, ts: int, now: real,
                           payload': string, secret': string)
    requires Hexadecimal(mac) && secret' != ""
    ensures Sign(mac, payload, secret, ts) == "t=" + Decimal(ts) + ",v1=" + mac(secret, Decimal(ts) + "." + payload)
    ensures Verify(mac, payload', Some(Sign(mac, payload, secret, ts)), secret', now)
         == if !(-300.0 <= now - ts as real <= 300.0) then OutsideTolerance
            else if mac(secret', Decimal(ts) + "." + payload') == mac(secret, Decimal(ts) + "." + payload) then Accepted
            else Mismatch
  {
    hide Sign, Pairs, Split, LastValue, Values, ParseInt, Message, Check, Ascii, Distance, Hexadecimal;
    SignPrints(mac, payload, secret, ts);
    HashedText(ts, payload, now);
    HashedText(ts, payload', now);
    SignReads(mac, payload, secret, ts);
    HashPlain(mac, secret, Message(ts, payload));
    CheckOne(mac(secret', Message(ts, payload')), mac(secret, Message(ts, payload)));
  }

  lemma SignPrints(mac: Mac, payload: string, secret: string, ts: int)
    ensures Sign(mac, payload, secret, ts) == "t=" + Decimal(ts) + ",v1=" + mac(secret, Decimal(ts) + "." + payload)
  {
    HashedText(ts, payload, 0.0);
  }

  /** Different timestamps or payloads are different texts to hash. */
  lemma MessageInjective(ts: int, payload: string, ts': int, payload': string)
    ensures Message(ts, payload) == Message(ts', payload') <==> ts == ts' && payload == payload'
  {
    hide Decimal, ParseInt;
    var t, t' := Decimal(ts), Decimal(ts');
    DecimalRoundTrip(ts);
    DecimalRoundTrip(ts');
    HashedText(ts, payload, 0.0);
    HashedText(ts', payload', 0.0);
    IndexOfLead(t, payload, '.');
    IndexOfLead(t', payload', '.');
    if Message(ts, payload) == Message(ts', payload') {
      var m := t + ['.'] + payload;
      assert m == t' + ['.'] + payload';
      assert t == m[..|t|] && t' == m[..|t'|];
      assert payload == m[|t| + 1..] && payload' == m[|t'| + 1..];
    }
  }

  ghost predicate CollisionFree(mac: Mac) {
    forall k, m, k', m' :: mac(k, m) == mac(k', m') ==> k == k' && m == m'
  }

  /** If the hash has no collisions, a header signed for one payload and secret is accepted for
      these and, within the tolerance, for no other. */
  lemma ForgeryRefused(mac: Mac, payload: string, secret: string, ts: int, now: real,
                       payload': string, secret': string)
    requires Hexadecimal(mac) && CollisionFree(mac) && secret' != ""
    ensures Verify(mac, payload', Some(Sign(mac, payload, secret, ts)), secret', now) == Accepted
            <==> payload' == payload && secret' == secret && -300.0 <= now - ts as real <= 300.0
  {
    hide Sign, Verify, Message, Hexadecimal;
    SignatureRoundTrip(mac, payload, secret, ts, now, payload', secret');
    MessageInjective(ts, payload, ts, payload');
    HashedText(ts, payload, now);
    HashedText(ts, payload', now);
  }

  lemma OneValue(key: string, value: string)
    ensures Values([Pair(key, value)], key) == [value]
  {
    var pairs := [Pair(key, value)];
    assert Values(pairs[1..], key) == [];
  }

  /** So a genuine signature behind one `v1` that is not ASCII is refused with an
      exception instead of being accepted. */
  lemma NonAsciiRaises(mac: Mac, payload: string, secret: string, ts: int)
    requires Hexadecimal(mac) && secret != ""
    ensures var v1 := mac(secret, Decimal(ts) + "." + payload);
            var header := Join(Framed(["v1=\U{e9}"], Decimal(ts), [], v1, []), ',');
            Verify(mac, payload, Some(header), secret, ts as real) == TypeErrorRaised
  {
    hide Verify, Pairs, Values, Framed, Join, Hexadecimal, Decimal, Message;
    var strange := "\U{e9}";
    var pre := ["v1=\U{e9}"];
    NoElements();
    PairOf("v1", strange);
    assert pre[0] == "v1" + "=" + strange;
    OneValue("v1", strange);
    assert strange[0] == 233 as char;
    assert |"v1"| != |"t"| && ',' !in pre[0];
    var earlier := Values(Pairs(pre), "v1") + Values(Pairs([]), "v1");
    assert Values(Pairs(pre), "v1") == [strange];
    assert Values(Pairs([]), "v1") == [];
    assert earlier == [strange];
    assert earlier[..0] == [] && !Ascii(earlier[0]);
    SignedAmongExtras(mac, payload, secret, ts, ts as real, pre, [], []);
  }
}
