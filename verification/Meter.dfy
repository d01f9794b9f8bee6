/** Reading the engine time off a stream: the rolling tail, the pattern searched in it,
    and the charge. Bytes are modelled as characters, one each. */
module Meter {

  type Bytes = seq<char>

  const TAIL_BYTES := 65536

  /** Python's `s[-65536:]`. */
  function Tail(s: Bytes): Bytes {
    if |s| <= TAIL_BYTES then s else s[|s| - TAIL_BYTES..]
  }

  function Concat(chunks: seq<Bytes>): Bytes {
    if chunks == [] then [] else Concat(chunks[..|chunks| - 1]) + chunks[|chunks| - 1]
  }

  // --- The pattern "engineSeconds":\s*([0-9.]+) ----------------------------------------------

  function Key(): Bytes {
    "\"engineSeconds\":"
  }

  /** The key starts with a quote and an `e`; its only other quote is followed by a colon. */
  lemma KeyShape()
    ensures |Key()| == 16 && Key()[0] == '"' && Key()[1] == 'e'
    ensures forall k :: 0 < k < 16 && Key()[k] == '"' ==> k + 1 < 16 && Key()[k + 1] != 'e'
  {
    var key := Key();
    assert key == ['"', 'e', 'n', 'g', 'i', 'n', 'e', 'S', 'e', 'c', 'o', 'n', 'd', 's', '"', ':'];
  }

  predicate IsSpace(c: char) {
    c == ' ' || 9 <= c as int <= 13
  }

  predicate IsNumber(c: char) {
    '0' <= c <= '9' || c == '.'
  }

  function SkipSpaces(s: Bytes): (r: Bytes)
    ensures |r| <= |s| && r == s[|s| - |r|..]
    ensures forall i :: 0 <= i < |s| - |r| ==> IsSpace(s[i])
  {
    if s != [] && IsSpace(s[0]) then SkipSpaces(s[1..]) else s
  }

  function Number(s: Bytes): (r: Bytes)
    ensures |r| <= |s| && r == s[..|r|]
    ensures forall i :: 0 <= i < |r| ==> IsNumber(s[i])
  {
    if s != [] && IsNumber(s[0]) then [s[0]] + Number(s[1..]) else []
  }

  /** The group matched at the very start of `s`, empty if there is no match there. */
  function Here(s: Bytes): Bytes {
    if Key() <= s then Number(SkipSpaces(s[|Key()|..])) else []
  }

  /** What follows the match at the start of `s`. */
  function After(s: Bytes): (r: Bytes)
    requires Here(s) != []
    ensures |r| < |s|
  {
    var t := SkipSpaces(s[|Key()|..]);
    t[|Number(t)|..]
  }

  /** `findall`: leftmost match first, continuing after each match. */
  function FindAll(s: Bytes): seq<Bytes>
    decreases |s|
  {
    if s == [] then []
    else if Here(s) != [] then [Here(s)] + FindAll(After(s))
    else FindAll(s[1..])
  }

  /** The group of the match that starts last in `s`, empty if there is none. */
  function LastMatch(s: Bytes): Bytes {
    if s == [] then []
    else if LastMatch(s[1..]) != [] then LastMatch(s[1..])
    else Here(s)
  }

  predicate MatchesAt(s: Bytes, i: nat)
    requires i <= |s|
  {
    Here(s[i..]) != []
  }

  lemma {:induction false} SkipUnmatched(s: Bytes, k: nat)
    requires k <= |s| && forall i :: 0 <= i < k ==> !MatchesAt(s, i)
    ensures LastMatch(s) == LastMatch(s[k..])
  {
    if k > 0 {
      assert !MatchesAt(s, 0) && s[0..] == s;
      forall i | 0 <= i < k - 1
        ensures !MatchesAt(s[1..], i)
      {
        assert s[1..][i..] == s[i + 1..];
        assert !MatchesAt(s, i + 1);
      }
      SkipUnmatched(s[1..], k - 1);
      assert s[1..][k - 1..] == s[k..];
    }
  }

  lemma KeyStarts(s: Bytes, k: nat)
    requires k <= |s| && MatchesAt(s, k)
    ensures k + 1 < |s| && s[k] == '"' && s[k + 1] == 'e'
  {
    KeyShape();
    hide Key;
    assert s[k] == s[k..][0] && s[k + 1] == s[k..][1];
  }

  lemma SpacesThenRest(s: Bytes) returns (gap: Bytes)
    ensures s == gap + SkipSpaces(s) && forall i :: 0 <= i < |gap| ==> IsSpace(gap[i])
  {
    gap := s[..|s| - |SkipSpaces(s)|];
  }

  lemma NumberThenRest(t: Bytes)
    ensures t == Number(t) + t[|Number(t)|..] && forall i :: 0 <= i < |Number(t)| ==> IsNumber(Number(t)[i])
  {
  }

  /** A match is the key, then spaces, then the number. */
  lemma MatchParts(s: Bytes) returns (gap: Bytes)
    requires Here(s) != []
    ensures s == Key() + (gap + (Here(s) + After(s)))
    ensures forall i :: 0 <= i < |gap| ==> IsSpace(gap[i])
    ensures forall i :: 0 <= i < |Here(s)| ==> IsNumber(Here(s)[i])
  {
    hide Key, IsSpace, IsNumber, SkipSpaces, Number;
    gap := SpacesThenRest(s[|Key()|..]);
    NumberThenRest(SkipSpaces(s[|Key()|..]));
  }

  lemma {:induction false} SkipOver(gap: Bytes, t: Bytes)
    requires (forall i :: 0 <= i < |gap| ==> IsSpace(gap[i])) && t != [] && !IsSpace(t[0])
    ensures SkipSpaces(gap + t) == t
  {
    if gap == [] {
      assert gap + t == t;
    } else {
      SkipOver(gap[1..], t);
      assert (gap + t)[1..] == gap[1..] + t;
    }
  }

  lemma {:induction false} NumberAll(num: Bytes, rest: Bytes)
    requires (forall i :: 0 <= i < |num| ==> IsNumber(num[i])) && (rest != [] ==> !IsNumber(rest[0]))
    ensures Number(num + rest) == num
  {
    if num == [] {
      assert num + rest == rest;
    } else {
      NumberAll(num[1..], rest);
      assert (num + rest)[1..] == num[1..] + rest;
    }
  }

  /** The pattern matches the key, any blanks and the longest run of digits and dots. */
  lemma HereReads(gap: Bytes, num: Bytes, rest: Bytes)
    requires forall i :: 0 <= i < |gap| ==> gap[i] in {' ', '\t', '\n', '\r', 11 as char, 12 as char}
    requires num != [] && forall i :: 0 <= i < |num| ==> '0' <= num[i] <= '9' || num[i] == '.'
    requires rest != [] ==> !('0' <= rest[0] <= '9') && rest[0] != '.'
    ensures var s := "\"engineSeconds\":" + (gap + (num + rest)); Here(s) == num && After(s) == rest
  {
    hide SkipSpaces, Number;
    var key, t := "\"engineSeconds\":", num + rest;
    var s := key + (gap + t);
    assert s[|key|..] == gap + t;
    assert t[0] == num[0];
    SkipOver(gap, t);
    NumberAll(num, rest);
    assert t[|num|..] == rest;
  }

  lemma {:induction false} NumberStops(s: Bytes)
    ensures |Number(s)| < |s| ==> !IsNumber(s[|Number(s)|])
  {
    if s != [] && IsNumber(s[0]) {
      NumberStops(s[1..]);
    }
  }

  /** And it matches nothing else. */
  lemma HereOnly(s: Bytes) returns (gap: Bytes, rest: Bytes)
    requires Here(s) != []
    ensures s == "\"engineSeconds\":" + (gap + (Here(s) + rest))
    ensures forall i :: 0 <= i < |gap| ==> gap[i] == ' ' || 9 <= gap[i] as int <= 13
    ensures forall i :: 0 <= i < |Here(s)| ==> '0' <= Here(s)[i] <= '9' || Here(s)[i] == '.'
    ensures rest != [] ==> !('0' <= rest[0] <= '9') && rest[0] != '.'
  {
    gap := MatchParts(s);
    rest := After(s);
    NumberStops(SkipSpaces(s[|Key()|..]));
  }

  lemma MatchShape(s: Bytes, k: nat)
    requires Here(s) != [] && k < |s| - |After(s)|
    ensures k < |Key()| ==> s[k] == Key()[k]
    ensures |Key()| <= k ==> IsSpace(s[k]) || IsNumber(s[k])
  {
    hide Key, Here, After, IsSpace, IsNumber;
    var gap := MatchParts(s);
    var i := k - |Key()|;
    assert s[k] == if i < 0 then Key()[k] else if i < |gap| then gap[i] else Here(s)[i - |gap|];
  }

  /** Inside a match no quote is followed by an `e`: the key's second quote is not, and
      neither spaces nor numbers are quotes. */
  lemma InsideMatch(s: Bytes, k: nat)
    requires Here(s) != [] && 0 < k < |s| - |After(s)|
    ensures !(k + 1 < |s| && s[k] == '"' && s[k + 1] == 'e')
  {
    hide Key, Here, After;
    KeyShape();
    MatchShape(s, k);
    if k + 1 < |s| - |After(s)| {
      MatchShape(s, k + 1);
    }
    MatchReaches(s);
  }

  lemma MatchReaches(s: Bytes)
    requires Here(s) != []
    ensures |Key()| < |s| - |After(s)| && After(s) == s[|s| - |After(s)|..]
  {
    hide Key, Here, After;
    var gap := MatchParts(s);
  }

  lemma NoOverlap(s: Bytes, k: nat)
    requires Here(s) != [] && 0 < k < |s| - |After(s)|
    ensures !MatchesAt(s, k)
  {
    hide Here;
    InsideMatch(s, k);
    if MatchesAt(s, k) {
      KeyStarts(s, k);
    }
  }

  lemma FindStep(s: Bytes)
    requires s != []
    ensures FindAll(s) == if Here(s) != [] then [Here(s)] + FindAll(After(s)) else FindAll(s[1..])
    ensures LastMatch(s) == if LastMatch(s[1..]) != [] then LastMatch(s[1..]) else Here(s)
  {
  }

  /** Skipping over a match leaves the last match what it was. */
  lemma AfterMatch(s: Bytes)
    requires s != [] && Here(s) != []
    ensures LastMatch(s[1..]) == LastMatch(After(s))
  {
    hide LastMatch, Here, After, Key;
    var k := |s| - |After(s)|;
    forall i | 0 <= i < k - 1
      ensures !MatchesAt(s[1..], i)
    {
      NoOverlap(s, i + 1);
      assert s[1..][i..] == s[i + 1..];
    }
    SkipUnmatched(s[1..], k - 1);
    MatchReaches(s);
    assert s[1..][k - 1..] == s[k..];
  }

  /** `findall(...)[-1]` is the group of the match that starts last. */
  lemma {:induction false} LastFound(s: Bytes)
    ensures FindAll(s) == [] <==> LastMatch(s) == []
    ensures FindAll(s) != [] ==> FindAll(s)[|FindAll(s)| - 1] == LastMatch(s)
    decreases |s|
  {
    if s != [] {
      hide FindAll, LastMatch, Here;
      FindStep(s);
      if Here(s) != [] {
        AfterMatch(s);
        LastFound(After(s));
      } else {
        LastFound(s[1..]);
      }
    }
  }

  /** There is a last match exactly if something matches somewhere. */
  lemma {:induction false} LastMatchExists(s: Bytes)
    ensures LastMatch(s) != [] <==> exists i :: 0 <= i <= |s| && MatchesAt(s, i)
  {
    if s == [] {
      assert forall i :: 0 <= i <= |s| ==> !MatchesAt(s, i);
    } else {
      LastMatchExists(s[1..]);
      if LastMatch(s[1..]) != [] {
        var i :| 0 <= i <= |s[1..]| && MatchesAt(s[1..], i);
        assert s[1..][i..] == s[i + 1..];
        assert MatchesAt(s, i + 1);
      } else if Here(s) != [] {
        assert s[0..] == s;
        assert MatchesAt(s, 0);
      } else {
        forall i | 0 <= i <= |s|
          ensures !MatchesAt(s, i)
        {
          if i == 0 {
            assert s[0..] == s;
          } else {
            assert s[i..] == s[1..][i - 1..];
            assert !MatchesAt(s[1..], i - 1);
          }
        }
      }
    }
  }

  lemma {:induction false} LastMatchSuffix(s: Bytes, d: nat)
    requires d <= |s| && LastMatch(s[d..]) != []
    ensures LastMatch(s) == LastMatch(s[d..])
  {
    if d > 0 {
      assert s[d..] == s[1..][d - 1..];
      LastMatchSuffix(s[1..], d - 1);
    } else {
      assert s[0..] == s;
    }
  }

  // --- The stream ------------------------------------------------------------------------------

  /** How the stream ends. A browser that goes away while the generator awaits the worker
      cancels it; one that goes away while a chunk is being sent closes it at its `yield`,
      which no handler sees, so that the status stays as it was. An exception that no handler
      names ends the run like `Complete`. */
  datatype Ending = Complete | Dropped | Cancelled | ClosedAtYield | Refused(code: nat)

  /** The browser went away in the middle of the run. */
  predicate Abandoned(ending: Ending) {
    ending.Cancelled? || ending.ClosedAtYield?
  }

  /** `Unreadable`: `float` raises on the text, after the release and before the record. */
  datatype Charge = Reported(number: Bytes) | Unreadable | WallTime | Nothing

  function Dots(number: Bytes): nat {
    if number == [] then 0 else (if number[0] == '.' then 1 else 0) + Dots(number[1..])
  }

  /** `float` of digits and dots: it takes at most one dot and at least one digit. */
  function Read(number: Bytes): Charge {
    if Dots(number) <= 1 && Dots(number) < |number| then Reported(number) else Unreadable
  }

  lemma {:induction false} DotsAll(number: Bytes)
    ensures Dots(number) <= |number|
    ensures Dots(number) == |number| <==> forall i :: 0 <= i < |number| ==> number[i] == '.'
    ensures Dots(number) == 0 <==> forall i :: 0 <= i < |number| ==> number[i] != '.'
  {
    if number != [] {
      DotsAll(number[1..]);
      assert forall i :: 0 < i < |number| ==> number[i] == number[1..][i - 1];
      assert forall i :: 0 <= i < |number| - 1 ==> number[1..][i] == number[i + 1];
    }
  }

  lemma {:induction false} DotsMost(number: Bytes)
    ensures Dots(number) <= 1 <==> forall i, j :: 0 <= i < j < |number| ==> !(number[i] == '.' && number[j] == '.')
  {
    if number != [] {
      var rest := number[1..];
      DotsMost(rest);
      DotsAll(rest);
      assert forall i :: 0 < i < |number| ==> number[i] == rest[i - 1];
      assert forall i :: 0 <= i < |rest| ==> rest[i] == number[i + 1];
    }
  }

  /** The number is read exactly if it has a digit and no second dot. */
  lemma ReadExactly(number: Bytes)
    ensures Read(number) ==
              if (exists i :: 0 <= i < |number| && number[i] != '.')
                 && (forall i, j :: 0 <= i < j < |number| ==> !(number[i] == '.' && number[j] == '.'))
              then Reported(number) else Unreadable
  {
    hide Dots;
    DotsAll(number);
    DotsMost(number);
  }

  /** The reported time if one is in the tail; else wall time for a run whose status says that
      it was cancelled or that the worker failed. */
  function ChargeFor(tail: Bytes, ending: Ending): Charge {
    var found := FindAll(tail);
    if found != [] then Read(found[|found| - 1])
    else if ending == Dropped || ending == Cancelled then WallTime
    else Nothing
  }

  /** The bytes the loop takes in: none when the worker refuses the run. */
  function Received(chunks: seq<Bytes>, ending: Ending): Bytes {
    if ending.Refused? then [] else Concat(chunks)
  }

  /** The tail as the loop rolls it, one chunk after the other. */
  function Rolled(chunks: seq<Bytes>): Bytes {
    if chunks == [] then [] else Tail(Rolled(chunks[..|chunks| - 1]) + chunks[|chunks| - 1])
  }

  lemma TailOfTail(a: Bytes, b: Bytes)
    ensures Tail(Tail(a) + b) == Tail(a + b)
  {
  }

  lemma TailEmpty()
    ensures Tail([]) == []
  {
  }

  lemma TailIs(s: Bytes)
    ensures Tail(s) == if |s| <= 65536 then s else s[|s| - 65536..]
  {
  }

  /** The rolling tail is always the last 65536 bytes of everything received. */
  lemma {:induction false} RolledIsTail(chunks: seq<Bytes>)
    ensures Rolled(chunks) == Tail(Concat(chunks))
    ensures var all := Concat(chunks); Rolled(chunks) == if |all| <= 65536 then all else all[|all| - 65536..]
  {
    hide Tail;
    TailIs(Concat(chunks));
    if chunks == [] {
      TailEmpty();
    } else {
      RolledIsTail(chunks[..|chunks| - 1]);
      TailOfTail(Concat(chunks[..|chunks| - 1]), chunks[|chunks| - 1]);
    }
  }

  /** The `gen` loop and its `finally`. */
  method Stream(chunks: seq<Bytes>, ending: Ending) returns (tail: Bytes, charge: Charge)
    ensures tail == (if ending.Refused? then [] else Rolled(chunks)) && tail == Tail(Received(chunks, ending))
    ensures charge == ChargeFor(tail, ending)
  {
    hide FindAll, Tail;
    TailEmpty();
    tail := [];
    if !ending.Refused? {
      var i := 0;
      while i < |chunks|
        invariant i <= |chunks| && tail == Rolled(chunks[..i])
      {
        assert chunks[..i + 1][..i] == chunks[..i];
        tail := Tail(tail + chunks[i]);
        i := i + 1;
      }
      assert chunks[..i] == chunks;
      RolledIsTail(chunks);
    }
    var found := FindAll(tail);
    if found != [] {
      charge := Read(found[|found| - 1]);
    } else if ending == Dropped || ending == Cancelled {
      charge := WallTime;
    } else {
      charge := Nothing;
    }
  }

  /** The charge does not depend on how the bytes were cut into chunks. */
  lemma ChunkIndependent(chunks: seq<Bytes>, chunks': seq<Bytes>, ending: Ending)
    requires Concat(chunks) == Concat(chunks')
    ensures ChargeFor(Rolled(chunks), ending) == ChargeFor(Rolled(chunks'), ending)
  {
    RolledIsTail(chunks);
    RolledIsTail(chunks');
  }

  /** A match starts within the last 65536 bytes of the stream. */
  ghost predicate MatchInReach(all: Bytes) {
    exists i :: |all| - |Tail(all)| <= i <= |all| && MatchesAt(all, i)
  }

  lemma TailIsSuffix(all: Bytes)
    ensures |Tail(all)| <= |all| && all[|all| - |Tail(all)|..] == Tail(all)
  {
  }

  /** The tail finds something exactly if a match of the stream starts within reach. */
  lemma TailSees(all: Bytes)
    ensures LastMatch(Tail(all)) != [] <==> MatchInReach(all)
  {
    hide Tail, Here, LastMatch;
    var tail := Tail(all);
    var start := |all| - |tail|;
    TailIsSuffix(all);
    LastMatchExists(tail);
    if i :| start <= i <= |all| && MatchesAt(all, i) {
      assert tail[i - start..] == all[i..];
      assert MatchesAt(tail, i - start);
    }
    if i :| 0 <= i <= |tail| && MatchesAt(tail, i) {
      assert tail[i..] == all[i + start..];
      assert MatchesAt(all, i + start);
    }
  }

  /** The charge is the number of the last match of the whole stream exactly when a match
      starts within the last 65536 bytes; otherwise nothing is found at all. */
  lemma ChargedIsLastOfStream(all: Bytes, ending: Ending)
    ensures MatchInReach(all) ==> LastMatch(all) != [] && ChargeFor(Tail(all), ending) == Read(LastMatch(all))
    ensures !MatchInReach(all) ==>
              ChargeFor(Tail(all), ending) == if ending.Dropped? || ending.Cancelled? then WallTime else Nothing
  {
    hide Tail, Read, FindAll, LastMatch, MatchInReach;
    var tail := Tail(all);
    TailIsSuffix(all);
    TailSees(all);
    LastFound(tail);
    if LastMatch(tail) != [] {
      LastMatchSuffix(all, |all| - |tail|);
    }
  }

  /** An abandoned run that reported no time in reach is charged wall time exactly if it was
      left while the worker was awaited; left while a chunk was being sent, it is free. */
  lemma AbandonedCharge(all: Bytes, ending: Ending)
    requires Abandoned(ending)
    ensures ChargeFor(Tail(all), ending) == WallTime <==> !MatchInReach(all) && ending.Cancelled?
    ensures ChargeFor(Tail(all), ending) == Nothing <==> !MatchInReach(all) && ending.ClosedAtYield?
  {
    hide ChargeFor, Tail, MatchInReach, LastMatch, Dots;
    ChargedIsLastOfStream(all, ending);
  }

  /** So the remark that an abandoned run is charged wall time does not hold: one chunk, and
      the browser goes away while it is being sent. */
  lemma AbandonedForFree()
    ensures var chunks := [":"];
            && ChargeFor(Rolled(chunks), ClosedAtYield) == Nothing
            && ChargeFor(Rolled(chunks), Cancelled) == WallTime
  {
    var chunks := [":"];
    assert chunks[..0] == [];
    assert Rolled(chunks) == Tail([] + ":") && [] + ":" == ":";
    assert Here(":") == [];
    assert ":"[1..] == [];
    assert FindAll(":") == FindAll(":"[1..]);
  }

  /** The last event of the stream decides. However the bytes were cut into chunks, if they end
      in the key, blanks, a run of digits and dots and a rest without the key, all within the
      last 65536, then that number is charged, whole; or the record is lost if it has two dots
      or no digit. */
  lemma FinalEventCharged(chunks: seq<Bytes>, pre: Bytes, gap: Bytes, num: Bytes, rest: Bytes, ending: Ending)
    requires Concat(chunks) == pre + ("\"engineSeconds\":" + (gap + (num + rest)))
    requires forall i :: 0 <= i < |gap| ==> gap[i] in {' ', '\t', '\n', '\r', 11 as char, 12 as char}
    requires num != [] && forall i :: 0 <= i < |num| ==> '0' <= num[i] <= '9' || num[i] == '.'
    requires rest != [] ==> !('0' <= rest[0] <= '9') && rest[0] != '.'
    requires forall i :: 0 <= i <= |rest| ==> !("\"engineSeconds\":" <= rest[i..])
    requires 16 + |gap| + |num| + |rest| <= 65536
    ensures ChargeFor(Rolled(chunks), ending) ==
              if (exists i :: 0 <= i < |num| && num[i] != '.')
                 && (forall i, j :: 0 <= i < j < |num| ==> !(num[i] == '.' && num[j] == '.'))
              then Reported(num) else Unreadable
  {
    hide Tail, Here, After, FindAll, LastMatch, Rolled, Concat, Read;
    var all, tail := Concat(chunks), Rolled(chunks);
    var s := "\"engineSeconds\":" + (gap + (num + rest));
    RolledIsTail(chunks);
    HereReads(gap, num, rest);
    KeyLess(rest);
    MatchThenNone(s);
    assert tail[|tail| - |s|..] == s;
    LastMatchSuffix(tail, |tail| - |s|);
    LastFound(tail);
    ReadExactly(num);
  }

  lemma KeyLess(s: Bytes)
    requires forall i :: 0 <= i <= |s| ==> !("\"engineSeconds\":" <= s[i..])
    ensures LastMatch(s) == []
  {
    LastMatchExists(s);
  }

  lemma MatchThenNone(s: Bytes)
    requires Here(s) != [] && LastMatch(After(s)) == []
    ensures LastMatch(s) == Here(s)
  {
    hide LastMatch, After, Here;
    NothingInNothing();
    AfterMatch(s);
    FindStep(s);
  }

  lemma NothingInNothing()
    ensures Here([]) == []
  {
  }
}
