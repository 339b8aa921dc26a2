/** The request-header list of an HTTP connection: an ordered list in which a
    header added under an existing name replaces the old one.  It carries the
    negotiated media type (`Content-Type` and `Accept`) and, after a Keystone
    exchange, the `X-Auth-Token`. */
module Headers {
  import opened Wrappers
  import opened Errors

  datatype Header = Header(name: string, value: string)

  const CONTENT_TYPE := "Content-Type"
  const ACCEPT := "Accept"
  const X_AUTH_TOKEN := "X-Auth-Token"

  /** No two headers of the list share a name. */
  predicate UniqueNames(hs: seq<Header>) {
    forall i, j :: 0 <= i < j < |hs| ==> hs[i].name != hs[j].name
  }

  predicate HasName(hs: seq<Header>, name: string) {
    exists i :: 0 <= i < |hs| && hs[i].name == name
  }

  /** The value a server would see for `name`: the first header so named. */
  function ValueOf(hs: seq<Header>, name: string): (r: Option<string>)
    ensures r.None? <==> !HasName(hs, name)
  {
    if hs == [] then None
    else if hs[0].name == name then Some(hs[0].value)
    else
      HasNameCons(hs, name);
      ValueOf(hs[1..], name)
  }

  lemma HasNameCons(hs: seq<Header>, name: string)
    requires hs != []
    ensures HasName(hs, name) <==> hs[0].name == name || HasName(hs[1..], name)
  {
    if HasName(hs[1..], name) {
      var i :| 0 <= i < |hs[1..]| && hs[1..][i].name == name;
      assert hs[i + 1].name == name;
    }
    if HasName(hs, name) && hs[0].name != name {
      var i :| 0 <= i < |hs| && hs[i].name == name;
      assert hs[1..][i - 1].name == name;
    }
  }

  /** The list with every header named `name` taken out, the rest kept in order. */
  function WithoutName(hs: seq<Header>, name: string): (r: seq<Header>)
    ensures |r| <= |hs|
    ensures forall h :: h in r <==> h in hs && h.name != name
    ensures !HasName(r, name)
  {
    if hs == [] then []
    else if hs[0].name == name then WithoutName(hs[1..], name)
    else [hs[0]] + WithoutName(hs[1..], name)
  }

  /** A new connection starts with no headers. */
  function NoHeaders(): (r: seq<Header>)
    ensures |r| == 0 && UniqueNames(r)
  {
    []
  }

  /** `addHeader`, as its documentation promises: a header with the same name
      is replaced, and the new header goes last. */
  function AddHeader(hs: seq<Header>, h: Header): (r: seq<Header>)
    ensures |r| > 0 && r[|r| - 1] == h
    ensures forall x :: x in r[..|r| - 1] <==> x in hs && x.name != h.name
    ensures UniqueNames(hs) ==> UniqueNames(r)
    ensures !HasName(hs, h.name) ==> r == hs + [h]
    ensures UniqueNames(hs) && HasName(hs, h.name) ==> |r| == |hs|
    ensures WithoutName(r, h.name) == WithoutName(hs, h.name)
  {
    var rest := WithoutName(hs, h.name);
    WithoutNameAbsent(hs, h.name);
    WithoutNameUnique(hs, h.name);
    WithoutNameAppend(rest, h);
    WithoutNameIdempotent(hs, h.name);
    WithoutNameUniqueLength(hs, h.name);
    assert (rest + [h])[..|rest|] == rest;
    rest + [h]
  }

  lemma {:induction false} WithoutNameAbsent(hs: seq<Header>, name: string)
    ensures !HasName(hs, name) ==> WithoutName(hs, name) == hs
  {
    if hs != [] && !HasName(hs, name) {
      assert hs[0].name != name;
      HasNameCons(hs, name);
      WithoutNameAbsent(hs[1..], name);
      assert hs == [hs[0]] + hs[1..];
    }
  }

  lemma {:induction false} WithoutNameUnique(hs: seq<Header>, name: string)
    ensures UniqueNames(hs) ==> UniqueNames(WithoutName(hs, name))
  {
    if hs != [] && UniqueNames(hs) {
      UniqueNamesTail(hs);
      WithoutNameUnique(hs[1..], name);
      if hs[0].name != name {
        var tail := WithoutName(hs[1..], name);
        forall x | x in tail
          ensures x.name != hs[0].name
        {
          FirstNameNotLater(hs, x);
        }
        UniqueNamesCons(hs[0], tail);
      }
    }
  }

  lemma UniqueNamesTail(hs: seq<Header>)
    requires hs != [] && UniqueNames(hs)
    ensures UniqueNames(hs[1..])
  {
    forall i, j | 0 <= i < j < |hs[1..]|
      ensures hs[1..][i].name != hs[1..][j].name
    {
      assert hs[1..][i] == hs[i + 1] && hs[1..][j] == hs[j + 1];
    }
  }

  /** In a list without repeated names, no later header shares the first one's name. */
  lemma FirstNameNotLater(hs: seq<Header>, x: Header)
    requires hs != [] && UniqueNames(hs) && x in hs[1..]
    ensures x.name != hs[0].name
  {
    var k :| 0 <= k < |hs[1..]| && hs[1..][k] == x;
    assert hs[k + 1] == x;
  }

  lemma UniqueNamesCons(h: Header, tail: seq<Header>)
    requires UniqueNames(tail) && forall x :: x in tail ==> x.name != h.name
    ensures UniqueNames([h] + tail)
  {
    var r := [h] + tail;
    forall i, j | 0 <= i < j < |r|
      ensures r[i].name != r[j].name
    {
      if i == 0 {
        assert r[j] == tail[j - 1];
        assert r[j] in tail;
      } else {
        assert r[i] == tail[i - 1] && r[j] == tail[j - 1];
      }
    }
  }

  lemma {:induction false} WithoutNameAppend(hs: seq<Header>, h: Header)
    ensures WithoutName(hs + [h], h.name) == WithoutName(hs, h.name)
  {
    if hs == [] {
      assert [h][1..] == [];
    } else {
      assert (hs + [h])[1..] == hs[1..] + [h];
      WithoutNameAppend(hs[1..], h);
    }
  }

  lemma {:induction false} WithoutNameIdempotent(hs: seq<Header>, name: string)
    ensures WithoutName(WithoutName(hs, name), name) == WithoutName(hs, name)
  {
    WithoutNameAbsent(WithoutName(hs, name), name);
  }

  lemma WithoutNameUniqueLength(hs: seq<Header>, name: string)
    ensures UniqueNames(hs) && HasName(hs, name) ==> |WithoutName(hs, name)| == |hs| - 1
  {
    if UniqueNames(hs) && HasName(hs, name) {
      WithoutNameDropsOne(hs, name);
    }
  }

  lemma {:induction false} WithoutNameDropsOne(hs: seq<Header>, name: string)
    requires UniqueNames(hs) && HasName(hs, name)
    ensures |WithoutName(hs, name)| == |hs| - 1
  {
    if hs[0].name == name {
      HasNameCons(hs, name);
      WithoutNameAbsent(hs[1..], name);
    } else {
      var i :| 0 <= i < |hs| && hs[i].name == name;
      assert hs[1..][i - 1].name == name;
      assert UniqueNames(hs[1..]) by {
        forall a, b | 0 <= a < b < |hs[1..]|
          ensures hs[1..][a].name != hs[1..][b].name
        {
          assert hs[1..][a] == hs[a + 1] && hs[1..][b] == hs[b + 1];
        }
      }
      WithoutNameDropsOne(hs[1..], name);
    }
  }

  /** Reading a header back after `AddHeader`: the added name now answers with
      the new value, every other name answers as before. */
  lemma AddHeaderLookup(hs: seq<Header>, h: Header, name: string)
    ensures ValueOf(AddHeader(hs, h), name) == if name == h.name then Some(h.value) else ValueOf(hs, name)
  {
    if name != h.name {
      ValueOfWithoutName(hs, h.name, name);
    }
    ValueOfAppend(WithoutName(hs, h.name), h, name);
  }

  lemma {:induction false} ValueOfWithoutName(hs: seq<Header>, dropped: string, name: string)
    requires name != dropped
    ensures ValueOf(WithoutName(hs, dropped), name) == ValueOf(hs, name)
  {
    if hs != [] {
      ValueOfWithoutName(hs[1..], dropped, name);
    }
  }

  lemma {:induction false} ValueOfAppend(hs: seq<Header>, h: Header, name: string)
    requires !HasName(hs, h.name)
    ensures ValueOf(hs + [h], name) == if name == h.name then Some(h.value) else ValueOf(hs, name)
  {
    if hs == [] {
    } else {
      assert (hs + [h])[1..] == hs[1..] + [h];
      assert hs[0].name != h.name;
      HasNameCons(hs, h.name);
      ValueOfAppend(hs[1..], h, name);
    }
  }

  /** `clearHeaders`. */
  function ClearHeaders(hs: seq<Header>): (r: seq<Header>)
    ensures r == NoHeaders()
  {
    []
  }

  /** `setMediaType`: `Content-Type`, then `Accept`, both set to `mediaType`. */
  function SetMediaType(hs: seq<Header>, mediaType: string): (r: seq<Header>)
    ensures |r| >= 2
    ensures r[|r| - 2] == Header(CONTENT_TYPE, mediaType)
    ensures r[|r| - 1] == Header(ACCEPT, mediaType)
    ensures UniqueNames(hs) ==> UniqueNames(r)
    ensures !HasName(hs, CONTENT_TYPE) && !HasName(hs, ACCEPT) ==>
              r == hs + [Header(CONTENT_TYPE, mediaType), Header(ACCEPT, mediaType)]
    ensures forall n :: n != CONTENT_TYPE && n != ACCEPT ==> ValueOf(r, n) == ValueOf(hs, n)
  {
    var withType := AddHeader(hs, Header(CONTENT_TYPE, mediaType));
    SetMediaTypeLookup(hs, mediaType);
    SetMediaTypeFresh(hs, mediaType);
    AddHeaderAppends(withType, Header(ACCEPT, mediaType));
    LastButOne(withType, Header(ACCEPT, mediaType));
    AddHeader(withType, Header(ACCEPT, mediaType))
  }

  lemma SetMediaTypeLookup(hs: seq<Header>, mediaType: string)
    ensures var r := AddHeader(AddHeader(hs, Header(CONTENT_TYPE, mediaType)), Header(ACCEPT, mediaType));
      forall n :: n != CONTENT_TYPE && n != ACCEPT ==> ValueOf(r, n) == ValueOf(hs, n)
  {
    var withType := AddHeader(hs, Header(CONTENT_TYPE, mediaType));
    forall n | n != CONTENT_TYPE && n != ACCEPT
      ensures ValueOf(AddHeader(withType, Header(ACCEPT, mediaType)), n) == ValueOf(hs, n)
    {
      AddHeaderLookup(hs, Header(CONTENT_TYPE, mediaType), n);
      AddHeaderLookup(withType, Header(ACCEPT, mediaType), n);
    }
  }

  lemma SetMediaTypeFresh(hs: seq<Header>, mediaType: string)
    ensures !HasName(hs, CONTENT_TYPE) && !HasName(hs, ACCEPT) ==>
              AddHeader(AddHeader(hs, Header(CONTENT_TYPE, mediaType)), Header(ACCEPT, mediaType))
              == hs + [Header(CONTENT_TYPE, mediaType), Header(ACCEPT, mediaType)]
  {
    if !HasName(hs, CONTENT_TYPE) && !HasName(hs, ACCEPT) {
      var withType := AddHeader(hs, Header(CONTENT_TYPE, mediaType));
      assert withType == hs + [Header(CONTENT_TYPE, mediaType)];
      HasNameAppend(hs, Header(CONTENT_TYPE, mediaType), ACCEPT);
      assert AddHeader(withType, Header(ACCEPT, mediaType)) == withType + [Header(ACCEPT, mediaType)];
      assert withType + [Header(ACCEPT, mediaType)] == hs + [Header(CONTENT_TYPE, mediaType), Header(ACCEPT, mediaType)];
    }
  }

  lemma HasNameAppend(hs: seq<Header>, h: Header, name: string)
    ensures HasName(hs + [h], name) <==> HasName(hs, name) || h.name == name
  {
    if HasName(hs, name) {
      var i :| 0 <= i < |hs| && hs[i].name == name;
      assert (hs + [h])[i].name == name;
    }
    if h.name == name {
      assert (hs + [h])[|hs|].name == name;
    }
    if HasName(hs + [h], name) && h.name != name {
      var i :| 0 <= i < |hs + [h]| && (hs + [h])[i].name == name;
      assert hs[i].name == name;
    }
  }

  /** Appending after taking a name out keeps the last header of another
      name just before the new one. */
  lemma LastButOne(hs: seq<Header>, h: Header)
    requires |hs| > 0 && hs[|hs| - 1].name != h.name
    ensures var r := WithoutName(hs, h.name) + [h];
            |r| >= 2 && r[|r| - 2] == hs[|hs| - 1]
  {
    WithoutNameLast(hs, h.name);
    SecondToLastOfAppend(WithoutName(hs, h.name), h);
  }

  /** `AddHeader` appends to what is left once the name is taken out. */
  lemma AddHeaderAppends(hs: seq<Header>, h: Header)
    ensures AddHeader(hs, h) == WithoutName(hs, h.name) + [h]
  {
  }

  lemma SecondToLastOfAppend(rest: seq<Header>, h: Header)
    requires |rest| > 0
    ensures |rest + [h]| >= 2 && (rest + [h])[|rest + [h]| - 2] == rest[|rest| - 1]
  {
  }

  lemma {:induction false} WithoutNameLast(hs: seq<Header>, name: string)
    requires |hs| > 0 && hs[|hs| - 1].name != name
    ensures |WithoutName(hs, name)| > 0
    ensures WithoutName(hs, name)[|WithoutName(hs, name)| - 1] == hs[|hs| - 1]
  {
    var last := hs[|hs| - 1];
    WithoutNameConcat(hs[..|hs| - 1], [last], name);
    assert hs[..|hs| - 1] + [last] == hs;
    assert WithoutName([last], name) == [last] + WithoutName([], name);
  }

  // ---------------------------------------------------------------------
  // `addHeader` as the source writes it: the loop removes matching headers
  // while iterating the list with a for-each, which an `ArrayList` iterator
  // answers with ConcurrentModificationException unless the removed element
  // was the second-to-last one.
  // ---------------------------------------------------------------------

  function RemoveAt(hs: seq<Header>, i: nat): (r: seq<Header>)
    requires i < |hs|
    ensures |r| == |hs| - 1
  {
    hs[..i] + hs[i + 1..]
  }

  /** The for-each loop: `cursor` is the iterator's next index and `modified`
      records that the list changed behind the iterator's back.  `hasNext()`
      is `cursor != size`; `next()` fails once the list was modified. */
  function ForEachRemove(hs: seq<Header>, name: string, cursor: nat, modified: bool): Result<seq<Header>>
    requires cursor <= |hs| + 1 && (!modified ==> cursor <= |hs|)
    decreases if modified then 0 else 1, |hs| - cursor
  {
    if cursor == |hs| then Success(hs)
    else if modified then Failure(ConcurrentModification)
    else if hs[cursor].name == name then ForEachRemove(RemoveAt(hs, cursor), name, cursor + 1, true)
    else ForEachRemove(hs, name, cursor + 1, false)
  }

  function AddHeaderAsWritten(hs: seq<Header>, h: Header): Result<seq<Header>> {
    match ForEachRemove(hs, h.name, 0, false)
    case Success(kept) => Success(kept + [h])
    case Failure(e) => Failure(e)
  }

  /** On a list with unique names, the loop as written completes exactly when
      the name is new or sits second-to-last, and then agrees with `AddHeader`. */
  lemma AddHeaderAsWrittenCompletes(hs: seq<Header>, h: Header)
    requires UniqueNames(hs)
    ensures AddHeaderAsWritten(hs, h).Success? <==>
              !HasName(hs, h.name) || (|hs| >= 2 && hs[|hs| - 2].name == h.name)
    ensures AddHeaderAsWritten(hs, h).Success? ==> AddHeaderAsWritten(hs, h).value == AddHeader(hs, h)
    ensures AddHeaderAsWritten(hs, h).Failure? ==> AddHeaderAsWritten(hs, h).error == ConcurrentModification
  {
    LoopFrom(hs, h.name, 0);
    if HasName(hs, h.name) {
      var i :| 0 <= i < |hs| && hs[i].name == h.name;
      if i == |hs| - 2 {
        RemoveAtIsWithoutName(hs, h.name, i);
      }
    } else {
      WithoutNameAbsent(hs, h.name);
    }
  }

  lemma {:induction false} LoopFrom(hs: seq<Header>, name: string, cursor: nat)
    requires UniqueNames(hs) && cursor <= |hs|
    requires forall k :: 0 <= k < cursor ==> hs[k].name != name
    ensures !HasName(hs, name) ==> ForEachRemove(hs, name, cursor, false) == Success(hs)
    ensures forall i :: 0 <= i < |hs| && hs[i].name == name ==>
              ForEachRemove(hs, name, cursor, false) ==
                (if i == |hs| - 2 then Success(RemoveAt(hs, i)) else Failure(ConcurrentModification))
    decreases |hs| - cursor
  {
    if cursor < |hs| {
      if hs[cursor].name == name {
        var r := RemoveAt(hs, cursor);
        assert ForEachRemove(hs, name, cursor, false) == ForEachRemove(r, name, cursor + 1, true);
        forall i | 0 <= i < |hs| && hs[i].name == name
          ensures i == cursor
        {
        }
      } else {
        LoopFrom(hs, name, cursor + 1);
      }
    }
  }

  lemma RemoveAtIsWithoutName(hs: seq<Header>, name: string, i: nat)
    requires UniqueNames(hs) && i < |hs| && hs[i].name == name
    ensures RemoveAt(hs, i) == WithoutName(hs, name)
  {
    var before, after := hs[..i], hs[i + 1..];
    NoNameInSlice(hs, name, i, 0, i);
    NoNameInSlice(hs, name, i, i + 1, |hs|);
    assert hs == before + ([hs[i]] + after);
    WithoutNameConcat(before, [hs[i]] + after, name);
    WithoutNameConcat([hs[i]], after, name);
    WithoutNameAbsent(before, name);
    WithoutNameAbsent(after, name);
  }

  /** With unique names, the name at index `i` appears in no slice that skips `i`. */
  lemma NoNameInSlice(hs: seq<Header>, name: string, i: nat, lo: nat, hi: nat)
    requires UniqueNames(hs) && i < |hs| && hs[i].name == name
    requires lo <= hi <= |hs| && (i < lo || hi <= i)
    ensures !HasName(hs[lo..hi], name)
  {
    forall k | 0 <= k < |hs[lo..hi]|
      ensures hs[lo..hi][k].name != name
    {
      assert hs[lo..hi][k] == hs[lo + k];
    }
  }

  lemma {:induction false} WithoutNameConcat(a: seq<Header>, b: seq<Header>, name: string)
    ensures WithoutName(a + b, name) == WithoutName(a, name) + WithoutName(b, name)
  {
    if a != [] {
      assert (a + b)[1..] == a[1..] + b;
      WithoutNameConcat(a[1..], b, name);
    } else {
      assert a + b == b;
    }
  }

  /** The media-type change after a Keystone exchange: with `Content-Type`,
      `Accept` and `X-Auth-Token` installed, replacing `Content-Type` removes
      the first of three headers, and the loop as written fails. */
  lemma MediaTypeChangeAfterTokenFails()
    ensures AddHeaderAsWritten(
              [Header(CONTENT_TYPE, "text/plain"), Header(ACCEPT, "text/plain"), Header(X_AUTH_TOKEN, "t")],
              Header(CONTENT_TYPE, "text/occi")) == Failure(ConcurrentModification)
    ensures AddHeader(
              [Header(CONTENT_TYPE, "text/plain"), Header(ACCEPT, "text/plain"), Header(X_AUTH_TOKEN, "t")],
              Header(CONTENT_TYPE, "text/occi"))
            == [Header(ACCEPT, "text/plain"), Header(X_AUTH_TOKEN, "t"), Header(CONTENT_TYPE, "text/occi")]
  {
    var hs := [Header(CONTENT_TYPE, "text/plain"), Header(ACCEPT, "text/plain"), Header(X_AUTH_TOKEN, "t")];
    var h := Header(CONTENT_TYPE, "text/occi");
    assert CONTENT_TYPE != ACCEPT && CONTENT_TYPE != X_AUTH_TOKEN && ACCEPT != X_AUTH_TOKEN;
    AddHeaderAsWrittenCompletes(hs, h);
    assert hs[0].name == h.name;
    assert WithoutName(hs, h.name) == [hs[1], hs[2]] by {
      assert hs[1..][1..] == [hs[2]];
      assert hs[1..][1..][1..] == [];
    }
  }
}
