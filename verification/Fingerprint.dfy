/** The bytes DeriveFingerprint hashes: internal/alert/alert.go. Strings are byte strings. */
module Fingerprint {
  import opened Common
  import opened Sorting

  type Labels = map<string, string>

  function Digit(d: nat): char
    requires d < 10
  {
    '0' + d as char
  }

  /** fmt's %d on a length. */
  function Decimal(n: nat): string {
    if n < 10 then [Digit(n)] else Decimal(n / 10) + [Digit(n % 10)]
  }

  function Field(s: string): string {
    Decimal(|s|) + ":" + s
  }

  function Pair(k: string, v: string): string {
    Field(k) + "=" + Field(v) + ";"
  }

  function EncodeKeys(keys: seq<string>, labels: Labels): string
    requires forall k :: k in keys ==> k in labels
  {
    if keys == [] then "" else Pair(keys[0], labels[keys[0]]) + EncodeKeys(keys[1..], labels)
  }

  /** The bytes written for a label set: its pairs, in key order. */
  ghost predicate Encodes(labels: Labels, e: string) {
    exists keys :: KeysInOrder(keys, labels.Keys) && e == EncodeKeys(keys, labels)
  }

  // ---- A reader of those bytes ----------------------------------------------------------------

  /** Digits up to a colon. */
  function ReadLength(s: string, acc: nat): Option<(nat, string)> {
    if s == [] then None
    else if s[0] == ':' then Some((acc, s[1..]))
    else if '0' <= s[0] <= '9' then ReadLength(s[1..], 10 * acc + (s[0] - '0') as nat)
    else None
  }

  function ReadField(s: string): Option<(string, string)> {
    match ReadLength(s, 0)
    case None => None
    case Some((n, rest)) => if n <= |rest| then Some((rest[..n], rest[n..])) else None
  }

  /** Skips one expected byte. */
  function Skip(c: char, s: string): Option<string> {
    if s != [] && s[0] == c then Some(s[1..]) else None
  }

  function Decode(s: string): Option<Labels>
    decreases |s|
  {
    if s == [] then Some(map[])
    else
      match ReadField(s)
      case None => None
      case Some((k, afterKey)) =>
        match Skip('=', afterKey)
        case None => None
        case Some(valueOn) =>
          match ReadField(valueOn)
          case None => None
          case Some((v, afterValue)) =>
            match Skip(';', afterValue)
            case None => None
            case Some(rest) =>
              if |rest| >= |s| then None
              else
                match Decode(rest)
                case None => None
                case Some(more) => Some(more[k := v])
  }

  lemma {:induction false} ReadDigits(n: nat, t: string)
    ensures ReadLength(Decimal(n) + t, 0) == ReadLength(t, n)
    ensures Decimal(n) != []
  {
    if n < 10 {
      assert ([Digit(n)] + t)[1..] == t;
    } else {
      var tail := [Digit(n % 10)] + t;
      assert Decimal(n) + t == Decimal(n / 10) + tail;
      ReadDigits(n / 10, tail);
      assert tail[1..] == t;
    }
  }

  lemma ReadBack(s: string, t: string)
    ensures ReadField(Field(s) + t) == Some((s, t))
  {
    assert Field(s) + t == Decimal(|s|) + (":" + s + t);
    ReadDigits(|s|, ":" + s + t);
    assert (":" + s + t)[1..] == s + t;
    assert (s + t)[..|s|] == s && (s + t)[|s|..] == t;
  }

  /** The labels of a list of keys. */
  function Only(labels: Labels, keys: seq<string>): Labels
    requires forall k :: k in keys ==> k in labels
  {
    map k | k in keys :: labels[k]
  }

  lemma SplitPair(k: string, v: string, rest: string)
    ensures Pair(k, v) + rest == Field(k) + ("=" + (Field(v) + (";" + rest)))
  {
  }

  lemma DecodePair(k: string, v: string, rest: string)
    requires Decode(rest).Some?
    ensures Decode(Pair(k, v) + rest) == Some(Decode(rest).value[k := v])
  {
    var s := Pair(k, v) + rest;
    var onValue := Field(v) + (";" + rest);
    SplitPair(k, v, rest);
    ReadBack(k, "=" + onValue);
    assert ("=" + onValue)[1..] == onValue;
    ReadBack(v, ";" + rest);
    assert (";" + rest)[1..] == rest;
    assert Skip('=', "=" + onValue) == Some(onValue) && Skip(';', ";" + rest) == Some(rest);
    assert |rest| < |s|;
  }

  lemma {:induction false} DecodeKeys(keys: seq<string>, labels: Labels)
    requires forall k :: k in keys ==> k in labels
    ensures Decode(EncodeKeys(keys, labels)) == Some(Only(labels, keys))
  {
    if keys == [] {
      assert Only(labels, keys) == map[];
    } else {
      DecodeKeys(keys[1..], labels);
      DecodePair(keys[0], labels[keys[0]], EncodeKeys(keys[1..], labels));
      assert Only(labels, keys) == Only(labels, keys[1..])[keys[0] := labels[keys[0]]];
    }
  }

  /** A decoder recovers the label set from the bytes. */
  lemma RoundTrip(labels: Labels, e: string)
    requires Encodes(labels, e)
    ensures Decode(e) == Some(labels)
  {
    var keys :| KeysInOrder(keys, labels.Keys) && e == EncodeKeys(keys, labels);
    DecodeKeys(keys, labels);
    assert Only(labels, keys) == labels;
  }

  /** Distinct label sets have distinct bytes, and one label set has one, whatever the iteration order. */
  lemma EncodingIsFaithful(a: Labels, b: Labels, ea: string, eb: string)
    requires Encodes(a, ea) && Encodes(b, eb)
    ensures a == b <==> ea == eb
  {
    RoundTrip(a, ea);
    RoundTrip(b, eb);
    if a == b {
      var ka :| KeysInOrder(ka, a.Keys) && ea == EncodeKeys(ka, a);
      var kb :| KeysInOrder(kb, b.Keys) && eb == EncodeKeys(kb, b);
      KeysInOrderAreUnique(ka, kb, a.Keys);
    }
  }

  /** The loops of DeriveFingerprint, up to the hash. */
  method HashedBytes(labels: Labels) returns (e: string)
    ensures Encodes(labels, e)
  {
    var keys := SortedKeys(labels.Keys);
    e := "";
    var i := 0;
    assert keys[..0] == [];
    while i < |keys|
      invariant 0 <= i <= |keys|
      invariant e == EncodeKeys(keys[..i], labels)
    {
      assert keys[i] in keys;
      EncodeKeysSnoc(keys[..i], keys[i], labels);
      assert keys[..i + 1] == keys[..i] + [keys[i]];
      e := e + Pair(keys[i], labels[keys[i]]);
      i := i + 1;
    }
    assert keys[..i] == keys;
  }

  lemma {:induction false} EncodeKeysSnoc(keys: seq<string>, k: string, labels: Labels)
    requires k in labels && forall x :: x in keys ==> x in labels
    ensures EncodeKeys(keys + [k], labels) == EncodeKeys(keys, labels) + Pair(k, labels[k])
  {
    if keys == [] {
      assert keys + [k] == [k];
    } else {
      assert (keys + [k])[1..] == keys[1..] + [k];
      EncodeKeysSnoc(keys[1..], k, labels);
    }
  }
}
