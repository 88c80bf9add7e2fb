/** Session identifiers (lib/server.js, `randomId` and the registry's retry loop). */
module SessionId {
  import opened Common

  /** A lower-case base-16 digit, as `Number.prototype.toString(16)` writes them. */
  predicate HexDigit(c: char) {
    '0' <= c <= '9' || 'a' <= c <= 'f'
  }

  /** The pieces joined in order. */
  function Concat(pieces: seq<string>): string {
    if pieces == [] then "" else Concat(pieces[..|pieces| - 1]) + pieces[|pieces| - 1]
  }

  /** The sum of the pieces' lengths. */
  function TotalLength(pieces: seq<string>): nat {
    if pieces == [] then 0 else TotalLength(pieces[..|pieces| - 1]) + |pieces[|pieces| - 1]|
  }

  predicate IsHex(s: string) {
    forall i :: 0 <= i < |s| ==> HexDigit(s[i])
  }

  /** `randomId()`: four draws of the random source (each the base-16 fraction digits of one
      random number, here given as `draw`), appended in order. */
  method RandomId(draw: seq<string>) returns (s: string)
    requires |draw| == 4
    ensures s == Concat(draw)
    ensures |s| == TotalLength(draw)
    ensures (forall i :: 0 <= i < 4 ==> IsHex(draw[i])) ==> IsHex(s)
  {
    s := "";
    for i := 0 to 4
      invariant s == Concat(draw[..i])
      invariant |s| == TotalLength(draw[..i])
      invariant (forall j :: 0 <= j < 4 ==> IsHex(draw[j])) ==> IsHex(s)
    {
      assert draw[..i + 1][..i] == draw[..i];
      s := s + draw[i];
    }
    assert draw[..4] == draw;
  }

  /** Joining hex pieces gives a hex string. */
  lemma {:induction false} ConcatHex(pieces: seq<string>)
    requires forall i :: 0 <= i < |pieces| ==> IsHex(pieces[i])
    ensures IsHex(Concat(pieces))
  {
    if pieces != [] {
      ConcatHex(pieces[..|pieces| - 1]);
    }
  }

  /** The registry's `do { id = randomId() } while (sessions[id])`: the id of the first draw
      that is not already a key of `taken`. Runs whose draws never produce a fresh id do not
      terminate in the source and are not modelled. */
  method FreshId(taken: set<string>, draws: seq<seq<string>>) returns (id: string, k: nat)
    requires forall i :: 0 <= i < |draws| ==> |draws[i]| == 4
    requires exists i :: 0 <= i < |draws| && Concat(draws[i]) !in taken
    ensures k < |draws| && id == Concat(draws[k])
    ensures id !in taken
    ensures forall j :: 0 <= j < k ==> Concat(draws[j]) in taken
  {
    k := 0;
    id := RandomId(draws[0]);
    while id in taken
      invariant k < |draws| && id == Concat(draws[k])
      invariant forall j :: 0 <= j < k ==> Concat(draws[j]) in taken
      invariant exists i :: k <= i < |draws| && Concat(draws[i]) !in taken
      decreases |draws| - k
    {
      k := k + 1;
      id := RandomId(draws[k]);
    }
  }

  /** No name a plain object inherits is made of hex digits, so for a hex id the registry's
      `sessions[id]` lookup on a plain object is truthy exactly when `id` is a key. */
  lemma InheritedNamesNotHex()
    ensures forall n :: n in InheritedNames ==> !IsHex(n)
  {
    forall n | n in InheritedNames
      ensures !IsHex(n)
    {
      if n == "constructor" {
        assert !HexDigit(n[1]);
      } else {
        assert !HexDigit(n[0]);
      }
    }
  }
}
