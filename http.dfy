/**
  The parts of Go's `net/http` and `net/url` that the plugin builds or reads:
  `http.Header` with its `Add` (which canonicalises the key the way
  `textproto.CanonicalMIMEHeaderKey` does), and the request and response
  records the mappers fill in.
*/
module Http {

  newtype byte = b: int | 0 <= b < 256
  type Bytes = seq<byte>

  /** `http.Header`: a canonical key maps to the values added under it, in order. */
  type Header = map<string, seq<string>>

  /** The characters RFC 7230 section 3.2.6 allows in a token, which is what a header name must be. */
  predicate IsTokenChar(c: char) {
    || ('a' <= c <= 'z') || ('A' <= c <= 'Z') || ('0' <= c <= '9')
    || c in "!#$%&'*+-.^_`|~"
  }

  predicate IsToken(s: string) {
    forall i :: 0 <= i < |s| ==> IsTokenChar(s[i])
  }

  /** One step of canonicalisation: upper case where `upper` holds, lower case elsewhere, other characters kept. */
  function FoldCase(c: char, upper: bool): char {
    if upper && 'a' <= c <= 'z' then (c as int - 32) as char
    else if !upper && 'A' <= c <= 'Z' then (c as int + 32) as char
    else c
  }

  /** Upper case at the start and after each `-`, lower case everywhere else. */
  function CaseFold(s: string, upper: bool): (r: string)
    ensures |r| == |s|
  {
    if s == [] then [] else
      var c := FoldCase(s[0], upper);
      [c] + CaseFold(s[1..], c == '-')
  }

  /** `textproto.CanonicalMIMEHeaderKey`: a key that is not a token is returned unchanged. */
  function CanonicalKey(s: string): (r: string)
    ensures |r| == |s|
    ensures !IsToken(s) ==> r == s
    ensures IsToken(s) ==> IsToken(r)
  {
    if IsToken(s) then CaseFoldKeepsTokens(s, true); CaseFold(s, true) else s
  }

  lemma {:induction false} CaseFoldKeepsTokens(s: string, upper: bool)
    requires IsToken(s)
    ensures IsToken(CaseFold(s, upper))
  {
    if s != [] {
      CaseFoldKeepsTokens(s[1..], FoldCase(s[0], upper) == '-');
    }
  }

  lemma {:induction false} CaseFoldIdempotent(s: string, upper: bool)
    ensures CaseFold(CaseFold(s, upper), upper) == CaseFold(s, upper)
  {
    if s != [] {
      var c := FoldCase(s[0], upper);
      assert FoldCase(c, upper) == c;
      CaseFoldIdempotent(s[1..], c == '-');
      assert CaseFold(s, upper)[1..] == CaseFold(s[1..], c == '-');
    }
  }

  /** Character by character: each letter is folded to upper case at the start and after a `-`, and to lower case elsewhere. */
  lemma {:induction false} CaseFoldChars(s: string, upper: bool)
    ensures forall i :: 0 <= i < |s| ==> CaseFold(s, upper)[i] == FoldCase(s[i], if i == 0 then upper else s[i - 1] == '-')
  {
    if s != [] {
      var c := FoldCase(s[0], upper);
      assert c == '-' <==> s[0] == '-';
      var t := CaseFold(s, upper);
      assert t == [c] + CaseFold(s[1..], c == '-');
      CaseFoldChars(s[1..], c == '-');
      forall i | 0 <= i < |s|
        ensures t[i] == FoldCase(s[i], if i == 0 then upper else s[i - 1] == '-')
      {
        if i > 0 {
          assert t[i] == CaseFold(s[1..], c == '-')[i - 1];
          assert s[1..][i - 1] == s[i];
          if i > 1 {
            assert s[1..][i - 2] == s[i - 1];
          }
        }
      }
    }
  }

  /** The canonical form of a token key: upper case first and after each `-`, lower case elsewhere, nothing else changed. */
  lemma CanonicalKeyChars(s: string)
    requires IsToken(s)
    ensures forall i :: 0 <= i < |s| ==>
      CanonicalKey(s)[i] == FoldCase(s[i], i == 0 || s[i - 1] == '-')
  {
    CaseFoldChars(s, true);
    assert CanonicalKey(s) == CaseFold(s, true);
    forall i | 0 <= i < |s|
      ensures CanonicalKey(s)[i] == FoldCase(s[i], i == 0 || s[i - 1] == '-')
    {
      assert (i == 0 || s[i - 1] == '-') == (if i == 0 then true else s[i - 1] == '-');
    }
  }

  /** Canonicalising a canonical key changes nothing. */
  lemma CanonicalKeyIdempotent(s: string)
    ensures CanonicalKey(CanonicalKey(s)) == CanonicalKey(s)
  {
    if IsToken(s) {
      CaseFoldKeepsTokens(s, true);
      CaseFoldIdempotent(s, true);
    }
  }

  /** `h.Add(key, value)`: append `value` to the values of the canonical form of `key`. */
  function Add(h: Header, key: string, value: string): (r: Header)
    ensures r.Keys == h.Keys + {CanonicalKey(key)}
    ensures r[CanonicalKey(key)] == (if CanonicalKey(key) in h then h[CanonicalKey(key)] else []) + [value]
    ensures forall k :: k in h && k != CanonicalKey(key) ==> r[k] == h[k]
  {
    var k := CanonicalKey(key);
    h[k := (if k in h then h[k] else []) + [value]]
  }

  /** `order` lists every key of a map exactly once: one possible order of a Go `range` over it. */
  predicate Enumerates(order: seq<string>, keys: set<string>) {
    && (forall i :: 0 <= i < |order| ==> order[i] in keys)
    && (forall k :: k in keys ==> k in order)
    && (forall i, j :: 0 <= i < j < |order| ==> order[i] != order[j])
  }

  /** The header that one `Add` per key of `src`, in the order `order`, builds from an empty header. */
  function HeaderOf(order: seq<string>, src: map<string, string>): Header
    requires forall i :: 0 <= i < |order| ==> order[i] in src
  {
    if order == [] then map[]
    else
      var last := order[|order| - 1];
      Add(HeaderOf(order[..|order| - 1], src), last, src[last])
  }

  /** Reference definition: the values of `src`, in `order`, whose keys canonicalise to `key`. */
  function ValuesFor(order: seq<string>, src: map<string, string>, key: string): seq<string>
    requires forall i :: 0 <= i < |order| ==> order[i] in src
  {
    if order == [] then []
    else
      var last := order[|order| - 1];
      ValuesFor(order[..|order| - 1], src, key) + (if CanonicalKey(last) == key then [src[last]] else [])
  }

  /** The header built by `Add` holds, under each key, exactly the values of the input keys that canonicalise to it. */
  lemma {:induction false} HeaderOfIsFilter(order: seq<string>, src: map<string, string>, key: string)
    requires forall i :: 0 <= i < |order| ==> order[i] in src
    ensures key in HeaderOf(order, src) <==> ValuesFor(order, src, key) != []
    ensures key in HeaderOf(order, src) ==> HeaderOf(order, src)[key] == ValuesFor(order, src, key)
  {
    if order != [] {
      HeaderOfIsFilter(order[..|order| - 1], src, key);
    }
  }

  lemma {:induction false} ValuesForContains(order: seq<string>, src: map<string, string>, i: nat)
    requires forall j :: 0 <= j < |order| ==> order[j] in src
    requires i < |order|
    ensures src[order[i]] in ValuesFor(order, src, CanonicalKey(order[i]))
  {
    if i < |order| - 1 {
      ValuesForContains(order[..|order| - 1], src, i);
    }
  }

  lemma {:induction false} ValuesForFrom(order: seq<string>, src: map<string, string>, key: string, v: string)
    requires forall j :: 0 <= j < |order| ==> order[j] in src
    requires v in ValuesFor(order, src, key)
    ensures exists i :: 0 <= i < |order| && CanonicalKey(order[i]) == key && src[order[i]] == v
  {
    var p := order[..|order| - 1];
    if v in ValuesFor(p, src, key) {
      ValuesForFrom(p, src, key, v);
      var i :| 0 <= i < |p| && CanonicalKey(p[i]) == key && src[p[i]] == v;
      assert order[i] == p[i];
    } else {
      assert CanonicalKey(order[|order| - 1]) == key && src[order[|order| - 1]] == v;
    }
  }

  /** Every input pair is in the built header, under its key's canonical form. */
  lemma HeaderOfContains(order: seq<string>, src: map<string, string>, i: nat)
    requires forall j :: 0 <= j < |order| ==> order[j] in src
    requires i < |order|
    ensures CanonicalKey(order[i]) in HeaderOf(order, src)
    ensures src[order[i]] in HeaderOf(order, src)[CanonicalKey(order[i])]
  {
    ValuesForContains(order, src, i);
    HeaderOfIsFilter(order, src, CanonicalKey(order[i]));
  }

  /** Nothing else is in the built header: each value there comes from an input key that canonicalises to its key. */
  lemma HeaderOfOnlyInputs(order: seq<string>, src: map<string, string>, key: string, v: string)
    requires forall j :: 0 <= j < |order| ==> order[j] in src
    requires key in HeaderOf(order, src) && v in HeaderOf(order, src)[key]
    ensures exists i :: 0 <= i < |order| && CanonicalKey(order[i]) == key && src[order[i]] == v
  {
    HeaderOfIsFilter(order, src, key);
    ValuesForFrom(order, src, key, v);
  }

  /** Every key `Add` leaves in a header is in canonical form. */
  lemma {:induction false} HeaderOfKeysCanonical(order: seq<string>, src: map<string, string>)
    requires forall j :: 0 <= j < |order| ==> order[j] in src
    ensures forall k :: k in HeaderOf(order, src) ==> CanonicalKey(k) == k
  {
    if order != [] {
      HeaderOfKeysCanonical(order[..|order| - 1], src);
      CanonicalKeyIdempotent(order[|order| - 1]);
    }
  }

  lemma {:induction false} ValuesForSingle(order: seq<string>, src: map<string, string>, key: string)
    requires forall j :: 0 <= j < |order| ==> order[j] in src && CanonicalKey(order[j]) == order[j]
    requires forall i, j :: 0 <= i < j < |order| ==> order[i] != order[j]
    ensures key in order ==> ValuesFor(order, src, key) == [src[key]]
    ensures key !in order ==> ValuesFor(order, src, key) == []
  {
    if order != [] {
      var p := order[..|order| - 1];
      ValuesForSingle(p, src, key);
      assert order == p + [order[|order| - 1]];
      if key == order[|order| - 1] {
        assert key !in p;
      }
    }
  }

  /**
    When every input key is already canonical, the built header maps each key
    to its one value, whatever order the keys were added in.
  */
  lemma HeaderOfCanonicalInput(order: seq<string>, src: map<string, string>)
    requires Enumerates(order, src.Keys)
    requires forall k :: k in src ==> CanonicalKey(k) == k
    ensures HeaderOf(order, src) == map k | k in src :: [src[k]]
  {
    var h := HeaderOf(order, src);
    forall k
      ensures k in h <==> k in src
      ensures k in h ==> h[k] == [src[k]]
    {
      ValuesForSingle(order, src, k);
      HeaderOfIsFilter(order, src, k);
    }
  }

  /** `net/url.URL`, the parts the plugin reads. */
  datatype Url = Url(scheme: string, host: string, path: string, rawQuery: string)

  /** The body installed by `http.NewRequest` or by the response mapper: a reader over bytes. */
  datatype Reader = BytesReader(data: Bytes)

  /** `*http.Request` as the request mapper leaves it (`verb` is its `Method` field). */
  datatype Request = Request(verb: string, url: string, body: Reader, header: Header)

  /** `*http.Response` as the response mapper leaves it. */
  datatype Response = Response(statusCode: int, header: Header, body: Reader, request: Request)
}
