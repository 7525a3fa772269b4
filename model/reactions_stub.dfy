/**
  * The in-memory reaction store that stands in for the reactions API: per image,
  * an insertion-ordered object from emoji to count. Network delays and logging
  * are left out; the random seed counts of a first read are a parameter.
  */
module ReactionsStub {
  import opened Wrappers
  import opened OrderedDict

  type Counts = ODict<string, nat>

  /** `reactions[emoji] || 0` */
  function CountOf(d: Counts, emoji: string): nat {
    if emoji in d.vals then d.vals[emoji] else 0
  }

  /** The sum of the values listed by `keys`. */
  function SumOver(keys: seq<string>, vals: map<string, nat>): nat
    requires forall k :: k in keys ==> k in vals
  {
    if keys == [] then 0 else vals[keys[0]] + SumOver(keys[1..], vals)
  }

  /** `Object.values(reactions).reduce((sum, count) => sum + count, 0)` */
  function Total(d: Counts): nat
    requires d.Valid()
  {
    SumOver(d.keys, d.vals)
  }

  // ---------------------------------------------------------------------------
  // Sums

  /** Two maps that agree on the listed keys give the same sum. */
  lemma {:induction false} SumAgree(keys: seq<string>, v1: map<string, nat>, v2: map<string, nat>)
    requires forall k :: k in keys ==> k in v1 && k in v2 && v1[k] == v2[k]
    ensures SumOver(keys, v1) == SumOver(keys, v2)
  {
    if keys != [] {
      SumAgree(keys[1..], v1, v2);
    }
  }

  /** Changing the value of one listed key changes the sum by the difference. */
  lemma {:induction false} SumPut(keys: seq<string>, vals: map<string, nat>, k: string, v: nat)
    requires Distinct(keys) && k in keys && forall x :: x in keys ==> x in vals
    ensures SumOver(keys, vals[k := v]) == SumOver(keys, vals) - vals[k] + v
  {
    if keys[0] == k {
      assert k !in keys[1..] by {
        forall j | 0 <= j < |keys[1..]| ensures keys[1..][j] != k {
          assert keys[1..][j] == keys[j + 1];
        }
      }
      SumAgree(keys[1..], vals[k := v], vals);
    } else {
      assert Distinct(keys[1..]) by {
        forall i, j | 0 <= i < j < |keys[1..]| ensures keys[1..][i] != keys[1..][j] {
          assert keys[1..][i] == keys[i + 1] && keys[1..][j] == keys[j + 1];
        }
      }
      SumPut(keys[1..], vals, k, v);
    }
  }

  /** A key appended at the end adds its value. */
  lemma {:induction false} SumAppend(keys: seq<string>, x: string, vals: map<string, nat>)
    requires forall k :: k in keys + [x] ==> k in vals
    ensures SumOver(keys + [x], vals) == SumOver(keys, vals) + vals[x]
  {
    if keys != [] {
      assert (keys + [x])[1..] == keys[1..] + [x];
      SumAppend(keys[1..], x, vals);
    }
  }

  /** Removing a key that counts 0 leaves the sum unchanged. */
  lemma {:induction false} SumRemoveZero(keys: seq<string>, vals: map<string, nat>, k: string)
    requires forall x :: x in keys ==> x in vals
    requires k in vals && vals[k] == 0
    ensures SumOver(Without(keys, k), vals - {k}) == SumOver(keys, vals)
  {
    if keys != [] {
      SumRemoveZero(keys[1..], vals, k);
      var rest := Without(keys[1..], k);
      if keys[0] != k {
        assert Without(keys, k) == [keys[0]] + rest;
        assert ([keys[0]] + rest)[1..] == rest;
      } else {
        assert Without(keys, k) == rest;
      }
    }
  }

  /** Removing a key just appended to a sequence without it gives the sequence back. */
  lemma {:induction false} WithoutAppended(keys: seq<string>, k: string)
    requires k !in keys
    ensures Without(keys + [k], k) == keys
  {
    if keys == [] {
      assert Without([k], k) == [] + Without([], k);
    } else {
      WithoutAppended(keys[1..], k);
      assert (keys + [k])[1..] == keys[1..] + [k];
      assert Without(keys + [k], k) == [keys[0]] + Without(keys[1..] + [k], k);
    }
  }

  // ---------------------------------------------------------------------------
  // The store's operations on one image's counts

  /** `reactions[emoji] = (reactions[emoji] || 0) + 1` */
  function Added(d: Counts, emoji: string): (r: Counts)
    requires d.Valid()
    ensures r.Valid()
    ensures CountOf(r, emoji) == CountOf(d, emoji) + 1
    ensures forall e :: e != emoji ==> CountOf(r, e) == CountOf(d, e)
  {
    Put(d, emoji, CountOf(d, emoji) + 1)
  }

  /** Decrement a positive count, deleting the key when it reaches 0; any other emoji is left alone. */
  function Removed(d: Counts, emoji: string): (r: Counts)
    requires d.Valid()
    ensures r.Valid()
    ensures CountOf(r, emoji) == if CountOf(d, emoji) > 0 then CountOf(d, emoji) - 1 else 0
    ensures forall e :: e != emoji ==> CountOf(r, e) == CountOf(d, e)
    ensures CountOf(d, emoji) > 0 ==> (emoji in r.vals <==> CountOf(d, emoji) > 1)
    ensures CountOf(d, emoji) == 0 ==> r == d
  {
    var c := CountOf(d, emoji);
    if c > 0 then
      if c - 1 == 0 then Remove(Put(d, emoji, 0), emoji) else Put(d, emoji, c - 1)
    else d
  }

  /** An added reaction raises the total by one. */
  lemma TotalAdded(d: Counts, emoji: string)
    requires d.Valid()
    ensures Total(Added(d, emoji)) == Total(d) + 1
  {
    if emoji in d.vals {
      SumPut(d.keys, d.vals, emoji, d.vals[emoji] + 1);
    } else {
      var vals := d.vals[emoji := 1];
      SumAppend(d.keys, emoji, vals);
      SumAgree(d.keys, vals, d.vals);
    }
  }

  /** A removal lowers the total by one exactly when the emoji had a positive count. */
  lemma TotalRemoved(d: Counts, emoji: string)
    requires d.Valid()
    ensures Total(Removed(d, emoji)) == Total(d) - (if CountOf(d, emoji) > 0 then 1 else 0)
  {
    var c := CountOf(d, emoji);
    if c > 0 {
      SumPut(d.keys, d.vals, emoji, c - 1);
      if c == 1 {
        var p := Put(d, emoji, 0);
        SumRemoveZero(p.keys, p.vals, emoji);
      }
    }
  }

  /** A removal after an addition restores every count. */
  lemma AddThenRemoveCounts(d: Counts, emoji: string)
    requires d.Valid()
    ensures forall e :: CountOf(Removed(Added(d, emoji), emoji), e) == CountOf(d, e)
  {
  }

  lemma AddThenRemoveAbsent(d: Counts, emoji: string)
    requires d.Valid() && emoji !in d.vals
    ensures Removed(Added(d, emoji), emoji) == d
  {
    var a := Put(d, emoji, 1);
    assert Added(d, emoji) == a && a.keys == d.keys + [emoji];
    var p := Put(a, emoji, 0);
    assert Removed(a, emoji) == Remove(p, emoji);
    WithoutAppended(d.keys, emoji);
    assert p.vals - {emoji} == d.vals;
  }

  lemma AddThenRemovePresent(d: Counts, emoji: string)
    requires d.Valid() && emoji in d.vals && d.vals[emoji] > 0
    ensures Removed(Added(d, emoji), emoji) == d
  {
    var c := d.vals[emoji];
    var a := Put(d, emoji, c + 1);
    assert Removed(a, emoji) == Put(a, emoji, c);
    assert a.vals[emoji := c] == d.vals;
  }

  /** It restores the whole object, key order included, unless the emoji was stored with count 0. */
  lemma AddThenRemove(d: Counts, emoji: string)
    requires d.Valid()
    requires emoji !in d.vals || d.vals[emoji] > 0
    ensures Removed(Added(d, emoji), emoji) == d
  {
    if emoji in d.vals {
      AddThenRemovePresent(d, emoji);
    } else {
      AddThenRemoveAbsent(d, emoji);
    }
  }

  /** The answer of `addReaction` and `removeReaction`. */
  datatype ReactionResponse = ReactionResponse(success: bool, count: nat, total: nat)

  /** The four seeded emoji of a first read. */
  const SeedEmoji: seq<string> := ["❤️", "🔥", "💀", "👍"]

  /** The counts a first read stores, in the seeded order, from the given random values. */
  function Seeded(heart: nat, fire: nat, skull: nat, thumbs: nat): (d: Counts)
    ensures d.Valid() && d.keys == SeedEmoji
  {
    ODict(SeedEmoji, map[SeedEmoji[0] := heart, SeedEmoji[1] := fire, SeedEmoji[2] := skull, SeedEmoji[3] := thumbs])
  }

  class Store {
    /** `mockReactionStorage` */
    var storage: map<string, Counts>

    ghost predicate Valid()
      reads this
    {
      forall id :: id in storage ==> storage[id].Valid()
    }

    constructor ()
      ensures storage == map[] && Valid()
    {
      storage := map[];
    }

    /** The counts of an image, `{}` when it has none. */
    function CountsOf(imageId: string): (d: Counts)
      reads this
      requires Valid()
      ensures d.Valid()
    {
      if imageId in storage then storage[imageId] else Empty()
    }

    /** `addReaction(imageId, emoji)`: stores the image's counts with that emoji one higher. */
    method AddReaction(imageId: string, emoji: string) returns (r: ReactionResponse)
      requires Valid()
      modifies this
      ensures Valid()
      ensures storage == old(storage)[imageId := Added(old(CountsOf(imageId)), emoji)]
      ensures r == ReactionResponse(true, CountOf(old(CountsOf(imageId)), emoji) + 1,
                                    Total(old(CountsOf(imageId))) + 1)
    {
      var reactions := if imageId in storage then storage[imageId] else Empty();
      reactions := Put(reactions, emoji, CountOf(reactions, emoji) + 1);
      storage := storage[imageId := reactions];
      TotalAdded(old(CountsOf(imageId)), emoji);
      r := ReactionResponse(true, reactions.vals[emoji], Total(reactions));
    }

    /** `removeReaction(imageId, emoji)`: an absent image or emoji leaves the store as it was and answers 0. */
    method RemoveReaction(imageId: string, emoji: string) returns (r: ReactionResponse)
      requires Valid()
      modifies this
      ensures Valid()
      ensures CountOf(old(CountsOf(imageId)), emoji) == 0 ==> storage == old(storage)
      ensures CountOf(old(CountsOf(imageId)), emoji) > 0 ==>
        storage == old(storage)[imageId := Removed(old(CountsOf(imageId)), emoji)]
      ensures r.success && r.count == CountOf(Removed(old(CountsOf(imageId)), emoji), emoji)
      ensures r.total == Total(old(CountsOf(imageId))) - (if CountOf(old(CountsOf(imageId)), emoji) > 0 then 1 else 0)
    {
      var reactions := if imageId in storage then storage[imageId] else Empty();
      if emoji in reactions.vals && reactions.vals[emoji] > 0 {
        reactions := Put(reactions, emoji, reactions.vals[emoji] - 1);
        if reactions.vals[emoji] == 0 {
          reactions := Remove(reactions, emoji);
        }
        storage := storage[imageId := reactions];
      }
      TotalRemoved(old(CountsOf(imageId)), emoji);
      r := ReactionResponse(true, CountOf(reactions, emoji), Total(reactions));
    }

    /** `getReactions(imageId)`: the stored counts, or the seeded ones, which are stored first. */
    method GetReactions(imageId: string, heart: nat, fire: nat, skull: nat, thumbs: nat) returns (d: Counts)
      requires Valid()
      modifies this
      ensures Valid()
      ensures imageId in old(storage) ==> d == old(storage)[imageId] && storage == old(storage)
      ensures imageId !in old(storage) ==>
        d == Seeded(heart, fire, skull, thumbs) && storage == old(storage)[imageId := d]
    {
      if imageId in storage {
        d := storage[imageId];
      } else {
        d := Seeded(heart, fire, skull, thumbs);
        storage := storage[imageId := d];
      }
    }

    /** `clearMockReactions()` */
    method Clear()
      modifies this
      ensures storage == map[] && Valid()
    {
      storage := map[];
    }
  }
}
