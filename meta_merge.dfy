/**
 * An additive metadata merge: desired labels and annotations overwrite live
 * ones, missing owner references are appended, nothing is removed. Paired with cleaning as the identity, it meets the
 * hypotheses of the idempotence lemma.
 */
module MetaMerge {
  import opened RouteTypes
  import opened RouteReconcile

  /** The wanted references that are not present, in order. */
  function MissingRefs(present: seq<OwnerReference>, wanted: seq<OwnerReference>): (added: seq<OwnerReference>)
    ensures forall x :: x in added <==> x in wanted && x !in present
  {
    if wanted == [] then []
    else (if wanted[0] in present then [] else [wanted[0]]) + MissingRefs(present, wanted[1..])
  }

  /** Nothing is missing when every wanted reference is present. */
  lemma {:induction false} NothingMissing(present: seq<OwnerReference>, wanted: seq<OwnerReference>)
    requires forall x :: x in wanted ==> x in present
    ensures MissingRefs(present, wanted) == []
  {
    if wanted != [] {
      assert wanted[0] in wanted;
      forall x | x in wanted[1..] ensures x in present {
        assert x in wanted;
      }
      NothingMissing(present, wanted[1..]);
    }
  }

  /**
   * Merge desired metadata into live metadata. Keys of the live object are
   * never removed, desired values win, other live values stay, existing
   * owner references stay in place, and the flag says whether anything changed.
   */
  function MergeMeta(live: ObjectMeta, desired: ObjectMeta): (m: MergedMeta)
    ensures live.labels.Keys <= m.meta.labels.Keys && live.annotations.Keys <= m.meta.annotations.Keys
    ensures forall k :: k in desired.labels ==> k in m.meta.labels && m.meta.labels[k] == desired.labels[k]
    ensures forall k :: k in live.labels && k !in desired.labels ==> m.meta.labels[k] == live.labels[k]
    ensures forall k :: k in desired.annotations ==> k in m.meta.annotations && m.meta.annotations[k] == desired.annotations[k]
    ensures forall k :: k in live.annotations && k !in desired.annotations ==> m.meta.annotations[k] == live.annotations[k]
    ensures live.ownerReferences <= m.meta.ownerReferences
    ensures forall x :: x in desired.ownerReferences ==> x in m.meta.ownerReferences
    ensures SameIdentity(m.meta, live)
    ensures m.modified <==> m.meta != live
  {
    var merged := live.(
      labels := live.labels + desired.labels,
      annotations := live.annotations + desired.annotations,
      ownerReferences := live.ownerReferences + MissingRefs(live.ownerReferences, desired.ownerReferences));
    MergedMeta(merged, merged != live)
  }

  function AdditiveOps(): MetaOps {
    MetaOps(MergeMeta, m => m)
  }

  /** Merging the same desired metadata a second time changes nothing. */
  lemma {:induction false} MergeMetaSettles(live: ObjectMeta, desired: ObjectMeta)
    ensures !MergeMeta(MergeMeta(live, desired).meta, desired).modified
  {
    var once := MergeMeta(live, desired).meta;
    NothingMissing(once.ownerReferences, desired.ownerReferences);
    assert once.labels + desired.labels == once.labels;
    assert once.annotations + desired.annotations == once.annotations;
  }

  /** Merging desired metadata into itself changes nothing. */
  lemma {:induction false} MergeMetaSelf(desired: ObjectMeta)
    ensures !MergeMeta(desired, desired).modified
  {
    NothingMissing(desired.ownerReferences, desired.ownerReferences);
    assert desired.labels + desired.labels == desired.labels;
    assert desired.annotations + desired.annotations == desired.annotations;
  }

  /** The additive merge meets the idempotence lemma's hypotheses, so that lemma is not vacuous. */
  lemma AdditiveOpsSettle()
    ensures Settles(AdditiveOps())
  {
    var ops := AdditiveOps();
    forall live, desired
      ensures !ops.ensureObjectMeta(ops.ensureObjectMeta(live, desired).meta, desired).modified
    {
      MergeMetaSettles(live, desired);
    }
    forall desired
      ensures !ops.ensureObjectMeta(ops.cleanLabelsAndAnnotations(desired), desired).modified
    {
      MergeMetaSelf(desired);
    }
  }
}
