/**
 * Document invariants and which edit operations keep them.
 *
 *  - WellTyped: a section fills exactly the child collection its `type` names.
 *  - UniqueIds: ids are distinct within every collection.
 *  - Numbered:  in every collection the `order` fields equal the list positions.
 *
 * The adds keep all three (given a fresh id); the updates keep them unless
 * the patch itself rewrites `id`, `order`, `type` or a child list; the
 * deletes keep the first two but not Numbered, because nothing renumbers
 * the survivors.
 */
module ProfileInvariants {
  import opened Wrappers
  import opened ProfileTypes
  import opened KeyedLists
  import opened ProfileOps

  /** A section's filled child collection matches its declared type. */
  predicate SectionTyped(s: Section) {
    match s.kind
    case Content => s.contentBlocks.Some? && s.techStack.None?
    case TechStack => s.techStack.Some? && s.contentBlocks.None?
  }

  ghost predicate ChildOrdersOk(s: Section) {
    && (s.contentBlocks.Some? ==> OrdersArePositions(s.contentBlocks.value, BlockOrder))
    && (s.techStack.Some? ==> OrdersArePositions(s.techStack.value, TechOrder))
  }

  ghost predicate ChildIdsOk(s: Section) {
    && (s.contentBlocks.Some? ==> DistinctIds(s.contentBlocks.value, BlockId))
    && (s.techStack.Some? ==> DistinctIds(s.techStack.value, TechId))
  }

  ghost predicate WellTyped(p: Profile) {
    forall m: ProfileMode, i :: 0 <= i < |SectionsOf(p, m)| ==> SectionTyped(SectionsOf(p, m)[i])
  }

  ghost predicate UniqueIds(p: Profile) {
    && DistinctIds(p.socialLinks, SocialLinkId)
    && (forall m: ProfileMode :: DistinctIds(SectionsOf(p, m), SectionId))
    && (forall m: ProfileMode, i :: 0 <= i < |SectionsOf(p, m)| ==> ChildIdsOk(SectionsOf(p, m)[i]))
  }

  ghost predicate Numbered(p: Profile) {
    && OrdersArePositions(p.socialLinks, SocialLinkOrder)
    && (forall m: ProfileMode :: OrdersArePositions(SectionsOf(p, m), SectionOrder))
    && (forall m: ProfileMode, i :: 0 <= i < |SectionsOf(p, m)| ==> ChildOrdersOk(SectionsOf(p, m)[i]))
  }

  /** All three invariants. */
  ghost predicate Tidy(p: Profile) {
    WellTyped(p) && UniqueIds(p) && Numbered(p)
  }

  /** The new id is unused by every section the block operation addresses. */
  ghost predicate FreshBlockId(p: Profile, mode: ProfileMode, sectionId: string, newId: string) {
    forall i :: 0 <= i < |SectionsOf(p, mode)| && HoldsBlocks(SectionsOf(p, mode)[i], sectionId) ==>
      FreshIn(SectionsOf(p, mode)[i].contentBlocks.value, BlockId, newId)
  }

  /** The new id is unused by every section the tech operation addresses. */
  ghost predicate FreshTechId(p: Profile, mode: ProfileMode, sectionId: string, newId: string) {
    forall i :: 0 <= i < |SectionsOf(p, mode)| && HoldsTech(SectionsOf(p, mode)[i], sectionId) ==>
      FreshIn(SectionsOf(p, mode)[i].techStack.value, TechId, newId)
  }

  // ---------- Social links ----------

  /** Adding a link with a fresh id keeps the document tidy: orders run 0..n afterwards. */
  lemma AddSocialLinkKeepsTidy(p: Profile, spec: SocialLinkSpec, newId: string)
    requires Tidy(p)
    requires FreshIn(p.socialLinks, SocialLinkId, newId)
    ensures Tidy(AddSocialLink(p, spec, newId))
  {
    var r := AddSocialLink(p, spec, newId);
    assert r.socialLinks == p.socialLinks + [NewSocialLink(spec, newId, |p.socialLinks|)];
    AppendKeepsOrders(p.socialLinks, SocialLinkOrder, NewSocialLink(spec, newId, |p.socialLinks|));
    AppendKeepsDistinct(p.socialLinks, SocialLinkId, NewSocialLink(spec, newId, |p.socialLinks|));
    assert forall m :: SectionsOf(r, m) == SectionsOf(p, m);
  }

  /** An update that does not rewrite `id` or `order` keeps the document tidy. */
  lemma UpdateSocialLinkKeepsTidy(p: Profile, linkId: string, u: SocialLinkPatch)
    requires Tidy(p)
    requires u.id.None? && u.order.None?
    ensures Tidy(UpdateSocialLink(p, linkId, u))
  {
    var r := UpdateSocialLink(p, linkId, u);
    UpdateKeepsOrders(p.socialLinks, SocialLinkId, SocialLinkOrder, linkId, MergeSocialLink, u);
    UpdateKeepsDistinct(p.socialLinks, SocialLinkId, linkId, MergeSocialLink, u);
    assert forall m :: SectionsOf(r, m) == SectionsOf(p, m);
  }

  /** Deleting keeps ids unique and sections typed; it removes the id for good. */
  lemma DeleteSocialLinkKeepsIds(p: Profile, linkId: string)
    requires WellTyped(p) && UniqueIds(p)
    ensures WellTyped(DeleteSocialLink(p, linkId)) && UniqueIds(DeleteSocialLink(p, linkId))
    ensures FreshIn(DeleteSocialLink(p, linkId).socialLinks, SocialLinkId, linkId)
  {
    var r := DeleteSocialLink(p, linkId);
    RemoveKeepsDistinct(p.socialLinks, SocialLinkId, linkId);
    assert forall m :: SectionsOf(r, m) == SectionsOf(p, m);
  }

  /** Deleting keeps the survivors in their relative order: it distributes over any split of the list. */
  lemma DeleteSocialLinkKeepsRelativeOrder(p: Profile, linkId: string, k: nat)
    requires k <= |p.socialLinks|
    ensures DeleteSocialLink(p, linkId).socialLinks ==
      RemoveById(p.socialLinks[..k], SocialLinkId, linkId) + RemoveById(p.socialLinks[k..], SocialLinkId, linkId)
  {
    assert p.socialLinks == p.socialLinks[..k] + p.socialLinks[k..];
    RemoveByIdAppend(p.socialLinks[..k], p.socialLinks[k..], SocialLinkId, linkId);
  }

  /** Deleting an id no link has changes nothing. */
  lemma DeleteAbsentSocialLink(p: Profile, linkId: string)
    requires FreshIn(p.socialLinks, SocialLinkId, linkId)
    ensures DeleteSocialLink(p, linkId) == p
  {
    RemoveAbsentId(p.socialLinks, SocialLinkId, linkId);
  }

  /** Updating an id no link has changes nothing. */
  lemma UpdateAbsentSocialLink(p: Profile, linkId: string, u: SocialLinkPatch)
    requires FreshIn(p.socialLinks, SocialLinkId, linkId)
    ensures UpdateSocialLink(p, linkId, u) == p
  {
    UpdateAbsentId(p.socialLinks, SocialLinkId, linkId, MergeSocialLink, u);
  }

  // ---------- Sections ----------

  /** Adding a typed, numbered section with a fresh id keeps the document tidy. */
  lemma AddSectionKeepsTidy(p: Profile, mode: ProfileMode, spec: SectionSpec, newId: string)
    requires Tidy(p)
    requires FreshIn(SectionsOf(p, mode), SectionId, newId)
    requires SectionTyped(NewSection(spec, newId, 0))
    requires ChildOrdersOk(NewSection(spec, newId, 0)) && ChildIdsOk(NewSection(spec, newId, 0))
    ensures Tidy(AddSection(p, mode, spec, newId))
  {
    var r := AddSection(p, mode, spec, newId);
    var ss := SectionsOf(p, mode);
    var x := NewSection(spec, newId, |ss|);
    assert SectionsOf(r, mode) == ss + [x];
    AppendKeepsOrders(ss, SectionOrder, x);
    AppendKeepsDistinct(ss, SectionId, x);
    assert SectionsOf(r, Other(mode)) == SectionsOf(p, Other(mode));
    forall m: ProfileMode, i | 0 <= i < |SectionsOf(r, m)|
      ensures SectionTyped(SectionsOf(r, m)[i]) && ChildOrdersOk(SectionsOf(r, m)[i]) && ChildIdsOk(SectionsOf(r, m)[i])
    {
      if m != mode {
        assert m == Other(mode);
        assert SectionsOf(r, m) == SectionsOf(p, m);
      } else if i < |ss| {
        assert SectionsOf(r, m)[i] == ss[i];
      }
    }
  }

  /** An update that rewrites none of `id`, `order`, `type` or the child lists keeps the document tidy. */
  lemma UpdateSectionKeepsTidy(p: Profile, mode: ProfileMode, sectionId: string, u: SectionPatch)
    requires Tidy(p)
    requires u.id.None? && u.order.None? && u.kind.None? && u.contentBlocks.None? && u.techStack.None?
    ensures Tidy(UpdateSection(p, mode, sectionId, u))
  {
    var r := UpdateSection(p, mode, sectionId, u);
    var ss := SectionsOf(p, mode);
    UpdateKeepsOrders(ss, SectionId, SectionOrder, sectionId, MergeSection, u);
    UpdateKeepsDistinct(ss, SectionId, sectionId, MergeSection, u);
    assert SectionsOf(r, Other(mode)) == SectionsOf(p, Other(mode));
    forall m: ProfileMode, i | 0 <= i < |SectionsOf(r, m)|
      ensures SectionTyped(SectionsOf(r, m)[i]) && ChildOrdersOk(SectionsOf(r, m)[i]) && ChildIdsOk(SectionsOf(r, m)[i])
    {
      if m != mode {
        assert m == Other(mode);
        assert SectionsOf(r, m) == SectionsOf(p, m);
      }
    }
  }

  /** Deleting a section keeps sections typed and ids unique. */
  lemma DeleteSectionKeepsIds(p: Profile, mode: ProfileMode, sectionId: string)
    requires WellTyped(p) && UniqueIds(p)
    ensures WellTyped(DeleteSection(p, mode, sectionId)) && UniqueIds(DeleteSection(p, mode, sectionId))
  {
    var r := DeleteSection(p, mode, sectionId);
    var ss := SectionsOf(p, mode);
    RemoveKeepsDistinct(ss, SectionId, sectionId);
    assert SectionsOf(r, Other(mode)) == SectionsOf(p, Other(mode));
    forall m: ProfileMode, i | 0 <= i < |SectionsOf(r, m)|
      ensures SectionTyped(SectionsOf(r, m)[i]) && ChildIdsOk(SectionsOf(r, m)[i])
    {
      if m != mode {
        assert m == Other(mode);
        assert SectionsOf(r, m) == SectionsOf(p, m);
      } else {
        assert SectionsOf(r, m)[i] in ss;
      }
    }
  }

  /** Deleting the first of two numbered sections leaves a gap: the survivor keeps order 1. */
  lemma DeleteSectionLeavesGap(p: Profile, mode: ProfileMode, a: Section, b: Section)
    requires SectionsOf(p, mode) == [a, b]
    requires a.order == 0 && b.order == 1 && a.id != b.id
    ensures Numbered(p) ==> !Numbered(DeleteSection(p, mode, a.id))
    ensures SectionsOf(DeleteSection(p, mode, a.id), mode) == [b]
  {
    assert [a, b][1..] == [b];
    assert RemoveById([b], SectionId, a.id) == [b];
  }

  /** Deleting an id no section of that mode has changes nothing. */
  lemma DeleteAbsentSection(p: Profile, mode: ProfileMode, sectionId: string)
    requires FreshIn(SectionsOf(p, mode), SectionId, sectionId)
    ensures DeleteSection(p, mode, sectionId) == p
  {
    RemoveAbsentId(SectionsOf(p, mode), SectionId, sectionId);
  }

  /** Updating an id no section of that mode has changes nothing. */
  lemma UpdateAbsentSection(p: Profile, mode: ProfileMode, sectionId: string, u: SectionPatch)
    requires FreshIn(SectionsOf(p, mode), SectionId, sectionId)
    ensures UpdateSection(p, mode, sectionId, u) == p
  {
    UpdateAbsentId(SectionsOf(p, mode), SectionId, sectionId, MergeSection, u);
  }

  // ---------- Content blocks ----------

  /** Adding a block with an id fresh in the addressed section keeps the document tidy. */
  lemma AddContentBlockKeepsTidy(p: Profile, mode: ProfileMode, sectionId: string, spec: ContentBlockSpec, newId: string)
    requires Tidy(p)
    requires FreshBlockId(p, mode, sectionId, newId)
    ensures Tidy(AddContentBlock(p, mode, sectionId, spec, newId))
  {
    var r := AddContentBlock(p, mode, sectionId, spec, newId);
    var ss, ss' := SectionsOf(p, mode), SectionsOf(r, mode);
    forall i | 0 <= i < |ss| ensures ss'[i].id == ss[i].id && ss'[i].order == ss[i].order {}
    forall m: ProfileMode, i | 0 <= i < |SectionsOf(r, m)|
      ensures SectionTyped(SectionsOf(r, m)[i]) && ChildOrdersOk(SectionsOf(r, m)[i]) && ChildIdsOk(SectionsOf(r, m)[i])
    {
      if m != mode {
        assert m == Other(mode);
        assert SectionsOf(r, m) == SectionsOf(p, m);
      } else {
        assert SectionsOf(p, m)[i] == ss[i];
        assert SectionTyped(ss[i]) && ChildIdsOk(ss[i]);
        assert Numbered(p) ==> ChildOrdersOk(ss[i]);
        if !HoldsBlocks(ss[i], sectionId) {
          assert ss'[i] == ss[i];
        } else {
          var bs := ss[i].contentBlocks.value;
          AppendKeepsOrders(bs, BlockOrder, NewBlock(spec, newId, |bs|));
          AppendKeepsDistinct(bs, BlockId, NewBlock(spec, newId, |bs|));
        }
      }
    }
    assert SectionsOf(r, Other(mode)) == SectionsOf(p, Other(mode));
  }

  /** A block update that rewrites neither `id` nor `order` keeps the document tidy. */
  lemma UpdateContentBlockKeepsTidy(p: Profile, mode: ProfileMode, sectionId: string, blockId: string, u: ContentBlockPatch)
    requires Tidy(p)
    requires u.id.None? && u.order.None?
    ensures Tidy(UpdateContentBlock(p, mode, sectionId, blockId, u))
  {
    var r := UpdateContentBlock(p, mode, sectionId, blockId, u);
    var ss, ss' := SectionsOf(p, mode), SectionsOf(r, mode);
    forall i | 0 <= i < |ss| ensures ss'[i].id == ss[i].id && ss'[i].order == ss[i].order {}
    forall m: ProfileMode, i | 0 <= i < |SectionsOf(r, m)|
      ensures SectionTyped(SectionsOf(r, m)[i]) && ChildOrdersOk(SectionsOf(r, m)[i]) && ChildIdsOk(SectionsOf(r, m)[i])
    {
      if m != mode {
        assert m == Other(mode);
        assert SectionsOf(r, m) == SectionsOf(p, m);
      } else {
        assert SectionsOf(p, m)[i] == ss[i];
        assert SectionTyped(ss[i]) && ChildIdsOk(ss[i]);
        assert Numbered(p) ==> ChildOrdersOk(ss[i]);
        if !HoldsBlocks(ss[i], sectionId) {
          assert ss'[i] == ss[i];
        } else {
          var bs := ss[i].contentBlocks.value;
          UpdateKeepsOrders(bs, BlockId, BlockOrder, blockId, MergeBlock, u);
          UpdateKeepsDistinct(bs, BlockId, blockId, MergeBlock, u);
        }
      }
    }
    assert SectionsOf(r, Other(mode)) == SectionsOf(p, Other(mode));
  }

  /** Deleting a block keeps sections typed and ids unique. */
  lemma DeleteContentBlockKeepsIds(p: Profile, mode: ProfileMode, sectionId: string, blockId: string)
    requires WellTyped(p) && UniqueIds(p)
    ensures WellTyped(DeleteContentBlock(p, mode, sectionId, blockId))
    ensures UniqueIds(DeleteContentBlock(p, mode, sectionId, blockId))
  {
    var r := DeleteContentBlock(p, mode, sectionId, blockId);
    var ss, ss' := SectionsOf(p, mode), SectionsOf(r, mode);
    forall i | 0 <= i < |ss| ensures ss'[i].id == ss[i].id {}
    forall m: ProfileMode, i | 0 <= i < |SectionsOf(r, m)|
      ensures SectionTyped(SectionsOf(r, m)[i]) && ChildIdsOk(SectionsOf(r, m)[i])
    {
      if m != mode {
        assert m == Other(mode);
        assert SectionsOf(r, m) == SectionsOf(p, m);
      } else {
        assert SectionsOf(p, m)[i] == ss[i];
        assert SectionTyped(ss[i]) && ChildIdsOk(ss[i]);
        assert Numbered(p) ==> ChildOrdersOk(ss[i]);
        if !HoldsBlocks(ss[i], sectionId) {
          assert ss'[i] == ss[i];
        } else {
          RemoveKeepsDistinct(ss[i].contentBlocks.value, BlockId, blockId);
        }
      }
    }
    assert SectionsOf(r, Other(mode)) == SectionsOf(p, Other(mode));
  }

  /** A block operation addressed to a section that does not exist, or has no block list, changes nothing. */
  lemma BlockOpsOnMissingSection(p: Profile, mode: ProfileMode, sectionId: string, blockId: string,
                                 spec: ContentBlockSpec, newId: string, u: ContentBlockPatch)
    requires forall i :: 0 <= i < |SectionsOf(p, mode)| ==> !HoldsBlocks(SectionsOf(p, mode)[i], sectionId)
    ensures AddContentBlock(p, mode, sectionId, spec, newId) == p
    ensures UpdateContentBlock(p, mode, sectionId, blockId, u) == p
    ensures DeleteContentBlock(p, mode, sectionId, blockId) == p
  {
    assert SectionsOf(AddContentBlock(p, mode, sectionId, spec, newId), mode) == SectionsOf(p, mode);
    assert SectionsOf(UpdateContentBlock(p, mode, sectionId, blockId, u), mode) == SectionsOf(p, mode);
    assert SectionsOf(DeleteContentBlock(p, mode, sectionId, blockId), mode) == SectionsOf(p, mode);
  }

  // ---------- Tech-stack items ----------

  /** Adding an item with an id fresh in the addressed section keeps the document tidy. */
  lemma AddTechStackKeepsTidy(p: Profile, mode: ProfileMode, sectionId: string, spec: TechStackSpec, newId: string)
    requires Tidy(p)
    requires FreshTechId(p, mode, sectionId, newId)
    ensures Tidy(AddTechStack(p, mode, sectionId, spec, newId))
  {
    var r := AddTechStack(p, mode, sectionId, spec, newId);
    var ss, ss' := SectionsOf(p, mode), SectionsOf(r, mode);
    forall i | 0 <= i < |ss| ensures ss'[i].id == ss[i].id && ss'[i].order == ss[i].order {}
    forall m: ProfileMode, i | 0 <= i < |SectionsOf(r, m)|
      ensures SectionTyped(SectionsOf(r, m)[i]) && ChildOrdersOk(SectionsOf(r, m)[i]) && ChildIdsOk(SectionsOf(r, m)[i])
    {
      if m != mode {
        assert m == Other(mode);
        assert SectionsOf(r, m) == SectionsOf(p, m);
      } else {
        assert SectionsOf(p, m)[i] == ss[i];
        assert SectionTyped(ss[i]) && ChildIdsOk(ss[i]);
        assert Numbered(p) ==> ChildOrdersOk(ss[i]);
        if !HoldsTech(ss[i], sectionId) {
          assert ss'[i] == ss[i];
        } else {
          var ts := ss[i].techStack.value;
          AppendKeepsOrders(ts, TechOrder, NewTech(spec, newId, |ts|));
          AppendKeepsDistinct(ts, TechId, NewTech(spec, newId, |ts|));
        }
      }
    }
    assert SectionsOf(r, Other(mode)) == SectionsOf(p, Other(mode));
  }

  /** An item update that rewrites neither `id` nor `order` keeps the document tidy. */
  lemma UpdateTechStackKeepsTidy(p: Profile, mode: ProfileMode, sectionId: string, techId: string, u: TechStackPatch)
    requires Tidy(p)
    requires u.id.None? && u.order.None?
    ensures Tidy(UpdateTechStack(p, mode, sectionId, techId, u))
  {
    var r := UpdateTechStack(p, mode, sectionId, techId, u);
    var ss, ss' := SectionsOf(p, mode), SectionsOf(r, mode);
    forall i | 0 <= i < |ss| ensures ss'[i].id == ss[i].id && ss'[i].order == ss[i].order {}
    forall m: ProfileMode, i | 0 <= i < |SectionsOf(r, m)|
      ensures SectionTyped(SectionsOf(r, m)[i]) && ChildOrdersOk(SectionsOf(r, m)[i]) && ChildIdsOk(SectionsOf(r, m)[i])
    {
      if m != mode {
        assert m == Other(mode);
        assert SectionsOf(r, m) == SectionsOf(p, m);
      } else {
        assert SectionsOf(p, m)[i] == ss[i];
        assert SectionTyped(ss[i]) && ChildIdsOk(ss[i]);
        assert Numbered(p) ==> ChildOrdersOk(ss[i]);
        if !HoldsTech(ss[i], sectionId) {
          assert ss'[i] == ss[i];
        } else {
          var ts := ss[i].techStack.value;
          UpdateKeepsOrders(ts, TechId, TechOrder, techId, MergeTech, u);
          UpdateKeepsDistinct(ts, TechId, techId, MergeTech, u);
        }
      }
    }
    assert SectionsOf(r, Other(mode)) == SectionsOf(p, Other(mode));
  }

  /** Deleting an item keeps sections typed and ids unique. */
  lemma DeleteTechStackKeepsIds(p: Profile, mode: ProfileMode, sectionId: string, techId: string)
    requires WellTyped(p) && UniqueIds(p)
    ensures WellTyped(DeleteTechStack(p, mode, sectionId, techId))
    ensures UniqueIds(DeleteTechStack(p, mode, sectionId, techId))
  {
    var r := DeleteTechStack(p, mode, sectionId, techId);
    var ss, ss' := SectionsOf(p, mode), SectionsOf(r, mode);
    forall i | 0 <= i < |ss| ensures ss'[i].id == ss[i].id {}
    forall m: ProfileMode, i | 0 <= i < |SectionsOf(r, m)|
      ensures SectionTyped(SectionsOf(r, m)[i]) && ChildIdsOk(SectionsOf(r, m)[i])
    {
      if m != mode {
        assert m == Other(mode);
        assert SectionsOf(r, m) == SectionsOf(p, m);
      } else {
        assert SectionsOf(p, m)[i] == ss[i];
        assert SectionTyped(ss[i]) && ChildIdsOk(ss[i]);
        assert Numbered(p) ==> ChildOrdersOk(ss[i]);
        if !HoldsTech(ss[i], sectionId) {
          assert ss'[i] == ss[i];
        } else {
          RemoveKeepsDistinct(ss[i].techStack.value, TechId, techId);
        }
      }
    }
    assert SectionsOf(r, Other(mode)) == SectionsOf(p, Other(mode));
  }

  /** A tech operation addressed to a section that does not exist, or has no tech list, changes nothing. */
  lemma TechOpsOnMissingSection(p: Profile, mode: ProfileMode, sectionId: string, techId: string,
                                spec: TechStackSpec, newId: string, u: TechStackPatch)
    requires forall i :: 0 <= i < |SectionsOf(p, mode)| ==> !HoldsTech(SectionsOf(p, mode)[i], sectionId)
    ensures AddTechStack(p, mode, sectionId, spec, newId) == p
    ensures UpdateTechStack(p, mode, sectionId, techId, u) == p
    ensures DeleteTechStack(p, mode, sectionId, techId) == p
  {
    assert SectionsOf(AddTechStack(p, mode, sectionId, spec, newId), mode) == SectionsOf(p, mode);
    assert SectionsOf(UpdateTechStack(p, mode, sectionId, techId, u), mode) == SectionsOf(p, mode);
    assert SectionsOf(DeleteTechStack(p, mode, sectionId, techId), mode) == SectionsOf(p, mode);
  }

  // ---------- Field merges ----------

  /** Merging twice with the same patch is merging once, and later patches win field by field. */
  lemma PersonalMergeLaws(p: PersonalInfo, a: PersonalPatch, b: PersonalPatch)
    ensures MergePersonal(MergePersonal(p, a), a) == MergePersonal(p, a)
    ensures b == PersonalPatch(None, None, None, None, None, None, None, None) ==> MergePersonal(p, b) == p
    ensures MergePersonal(MergePersonal(p, a), b) == MergePersonal(p, PersonalPatch(
      Then(a.name, b.name), Then(a.title, b.title), Then(a.email, b.email), Then(a.phone, b.phone),
      Then(a.image, b.image), Then(a.imageIs3D, b.imageIs3D), Then(a.enable3D, b.enable3D),
      Then(a.enableGradient, b.enableGradient)))
  {
  }

  /** The same laws for display settings. */
  lemma DisplayMergeLaws(d: DisplaySettings, a: DisplayPatch, b: DisplayPatch)
    ensures MergeDisplay(MergeDisplay(d, a), a) == MergeDisplay(d, a)
    ensures b == DisplayPatch(None, None, None) ==> MergeDisplay(d, b) == d
    ensures MergeDisplay(MergeDisplay(d, a), b) ==
      MergeDisplay(d, DisplayPatch(Then(a.showWeb2, b.showWeb2), Then(a.showWeb3, b.showWeb3), Then(a.defaultView, b.defaultView)))
  {
  }

  /** The same laws for the background. */
  lemma BackgroundMergeLaws(g: BackgroundConfig, a: BackgroundPatch, b: BackgroundPatch)
    ensures MergeBackground(MergeBackground(g, a), a) == MergeBackground(g, a)
    ensures b == BackgroundPatch(None, None, None, None, None) ==> MergeBackground(g, b) == g
    ensures MergeBackground(MergeBackground(g, a), b) == MergeBackground(g, BackgroundPatch(
      Then(a.kind, b.kind), Then(a.color, b.color), Then(a.speed, b.speed), Then(a.density, b.density),
      Then(a.interactive, b.interactive)))
  {
  }
}
