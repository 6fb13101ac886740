/**
 * The map's location content and its classification into monsters and
 * passages (`Game.create_location`).
 *
 * A location's content is an ordered list of JSON values. A string is a
 * monster ("Name_exp<digits>_tm<cost>"); an object is a passage whose first
 * key names the destination and whose value under that key is the
 * destination's own content. Any other JSON value is skipped by the
 * classifier but still occupies a position.
 */
module Locations {

  datatype Entry =
    | Mob(name: string)
    | Door(key: string, content: seq<Entry>)
    | Other

  /** The monsters of `es`, in entry order. */
  function MobsOf(es: seq<Entry>): seq<string>
  {
    if es == [] then []
    else
      var last := es[|es| - 1];
      MobsOf(es[..|es| - 1]) + (if last.Mob? then [last.name] else [])
  }

  /** The passages of `es` as (position, first key), in entry order. */
  function PassagesOf(es: seq<Entry>): seq<(nat, string)>
  {
    if es == [] then []
    else
      var last := es[|es| - 1];
      PassagesOf(es[..|es| - 1]) + (if last.Door? then [(|es| - 1, last.key)] else [])
  }

  /** Passage records that point at a door of `es` carrying that key. */
  predicate PointsAtDoors(es: seq<Entry>, ps: seq<(nat, string)>)
  {
    forall j :: 0 <= j < |ps| ==>
      ps[j].0 < |es| && es[ps[j].0].Door? && es[ps[j].0].key == ps[j].1
  }

  /** Every passage the classifier lists is a door of the content, under its key. */
  lemma {:induction false} PassagesAreDoors(es: seq<Entry>)
    ensures PointsAtDoors(es, PassagesOf(es))
  {
    if es != [] {
      var init := es[..|es| - 1];
      PassagesAreDoors(init);
      forall j | 0 <= j < |PassagesOf(init)|
        ensures es[PassagesOf(init)[j].0] == init[PassagesOf(init)[j].0]
      {
      }
    }
  }

  /** Every door of the content is listed, with its position and key. */
  lemma {:induction false} DoorsAreListed(es: seq<Entry>, i: nat)
    requires i < |es| && es[i].Door?
    ensures (i, es[i].key) in PassagesOf(es)
  {
    var init := es[..|es| - 1];
    if i < |es| - 1 {
      DoorsAreListed(init, i);
    }
  }

  /** Passages are listed in increasing position, hence each door once. */
  lemma {:induction false} PassagesInEntryOrder(es: seq<Entry>)
    ensures forall j, k :: 0 <= j < k < |PassagesOf(es)| ==> PassagesOf(es)[j].0 < PassagesOf(es)[k].0
    ensures forall j :: 0 <= j < |PassagesOf(es)| ==> PassagesOf(es)[j].0 < |es|
  {
    if es != [] {
      PassagesInEntryOrder(es[..|es| - 1]);
    }
  }

  /** A name is listed as a monster exactly when the content holds that monster. */
  lemma {:induction false} MobsAreMonsters(es: seq<Entry>, x: string)
    ensures x in MobsOf(es) <==> Mob(x) in es
  {
    if es != [] {
      var init := es[..|es| - 1];
      MobsAreMonsters(init, x);
      assert es == init + [es[|es| - 1]];
    }
  }

  /** Classifying a concatenation lists the first part's monsters, then the second's. */
  lemma {:induction false} MobsOfConcat(a: seq<Entry>, b: seq<Entry>)
    ensures MobsOf(a + b) == MobsOf(a) + MobsOf(b)
    decreases |b|
  {
    if b != [] {
      var b' := b[..|b| - 1];
      assert (a + b)[..|a + b| - 1] == a + b';
      MobsOfConcat(a, b');
    } else {
      assert a + b == a;
    }
  }

  /** Each entry is counted at most once, in one of the two lists. */
  lemma {:induction false} ClassifiedCount(es: seq<Entry>)
    ensures |MobsOf(es)| + |PassagesOf(es)| <= |es|
    ensures (forall i :: 0 <= i < |es| ==> !es[i].Other?) ==> |MobsOf(es)| + |PassagesOf(es)| == |es|
  {
    if es != [] {
      ClassifiedCount(es[..|es| - 1]);
    }
  }
}
