/**
 * The engine's edit operations as pure `prev -> next` transformations of a
 * profile: each is the function passed to `setProfile(prev => ...)`.
 * New ids come in as a parameter (`newId`), standing for `generateId(...)`.
 */
module ProfileOps {
  import opened Wrappers
  import opened ProfileTypes
  import opened KeyedLists

  // ---------- `{ ...old, ...patch }` for each record ----------

  function MergePersonal(p: PersonalInfo, u: PersonalPatch): PersonalInfo {
    PersonalInfo(
      Override(u.name, p.name), Override(u.title, p.title), Override(u.email, p.email),
      Override(u.phone, p.phone), Override(u.image, p.image), Override(u.imageIs3D, p.imageIs3D),
      Override(u.enable3D, p.enable3D), Override(u.enableGradient, p.enableGradient))
  }

  function MergeDisplay(d: DisplaySettings, u: DisplayPatch): DisplaySettings {
    DisplaySettings(Override(u.showWeb2, d.showWeb2), Override(u.showWeb3, d.showWeb3),
                    Override(u.defaultView, d.defaultView))
  }

  function MergeBackground(b: BackgroundConfig, u: BackgroundPatch): BackgroundConfig {
    BackgroundConfig(Override(u.kind, b.kind), Override(u.color, b.color), Override(u.speed, b.speed),
                     Override(u.density, b.density), Override(u.interactive, b.interactive))
  }

  function MergeSocialLink(l: SocialLink, u: SocialLinkPatch): SocialLink {
    SocialLink(Override(u.id, l.id), Override(u.platform, l.platform), Override(u.url, l.url),
               Override(u.order, l.order))
  }

  function MergeSection(s: Section, u: SectionPatch): Section {
    Section(Override(u.id, s.id), Override(u.name, s.name), Override(u.kind, s.kind),
            Override(u.contentBlocks, s.contentBlocks), Override(u.techStack, s.techStack),
            Override(u.order, s.order))
  }

  function MergeBlock(b: ContentBlock, u: ContentBlockPatch): ContentBlock {
    ContentBlock(Override(u.id, b.id), Override(u.kind, b.kind), Override(u.content, b.content),
                 Override(u.duration, b.duration), Override(u.order, b.order))
  }

  function MergeTech(t: TechStackItem, u: TechStackPatch): TechStackItem {
    TechStackItem(Override(u.id, t.id), Override(u.name, t.name), Override(u.icon, t.icon),
                  Override(u.order, t.order))
  }

  // ---------- The new element built by each add: `{ ...spec, id, order }` ----------

  function NewSocialLink(spec: SocialLinkSpec, id: string, order: int): SocialLink {
    SocialLink(id, spec.platform, spec.url, order)
  }

  function NewSection(spec: SectionSpec, id: string, order: int): Section {
    Section(id, spec.name, spec.kind, spec.contentBlocks, spec.techStack, order)
  }

  function NewBlock(spec: ContentBlockSpec, id: string, order: int): ContentBlock {
    ContentBlock(id, spec.kind, spec.content, spec.duration, order)
  }

  function NewTech(spec: TechStackSpec, id: string, order: int): TechStackItem {
    TechStackItem(id, spec.name, spec.icon, order)
  }

  // ---------- Frames: what an operation may change ----------

  ghost predicate OnlyPersonalChanged(p: Profile, r: Profile) { r.(personal := p.personal) == p }
  ghost predicate OnlySocialLinksChanged(p: Profile, r: Profile) { r.(socialLinks := p.socialLinks) == p }
  ghost predicate OnlyDisplayChanged(p: Profile, r: Profile) { r.(displaySettings := p.displaySettings) == p }
  ghost predicate OnlyBackgroundChanged(p: Profile, r: Profile) {
    r.(theme := r.theme.(background := p.theme.background)) == p
  }
  /** Only `profile[mode].sections` may differ. */
  ghost predicate OnlyModeChanged(p: Profile, r: Profile, mode: ProfileMode) {
    WithSections(r, mode, SectionsOf(p, mode)) == p
  }

  /** A mode-scoped change leaves the other mode and every mode-independent part alone. */
  lemma ModeScopedFrame(p: Profile, r: Profile, mode: ProfileMode)
    requires OnlyModeChanged(p, r, mode)
    ensures ModeOf(r, Other(mode)) == ModeOf(p, Other(mode))
    ensures r.id == p.id && r.personal == p.personal && r.socialLinks == p.socialLinks
    ensures r.displaySettings == p.displaySettings && r.theme == p.theme
  {
  }

  // ---------- Personal info, display settings, background ----------

  /** `updatePersonalInfo(updates)` */
  function UpdatePersonalInfo(p: Profile, u: PersonalPatch): (r: Profile)
    ensures OnlyPersonalChanged(p, r)
    ensures r.personal == MergePersonal(p.personal, u)
  {
    p.(personal := MergePersonal(p.personal, u))
  }

  /** `updateDisplaySettings(settings)` */
  function UpdateDisplaySettings(p: Profile, u: DisplayPatch): (r: Profile)
    ensures OnlyDisplayChanged(p, r)
    ensures r.displaySettings == MergeDisplay(p.displaySettings, u)
  {
    p.(displaySettings := MergeDisplay(p.displaySettings, u))
  }

  /** `updateBackground(config)`: merges into `theme.background`; the colours stay. */
  function UpdateBackground(p: Profile, u: BackgroundPatch): (r: Profile)
    ensures OnlyBackgroundChanged(p, r)
    ensures r.theme.accentColor == p.theme.accentColor && r.theme.textColor == p.theme.textColor
    ensures r.theme.background == MergeBackground(p.theme.background, u)
  {
    p.(theme := p.theme.(background := MergeBackground(p.theme.background, u)))
  }

  // ---------- Social links ----------

  /** `addSocialLink(link)`: one new link at the end, its order the old length. */
  function AddSocialLink(p: Profile, spec: SocialLinkSpec, newId: string): (r: Profile)
    ensures OnlySocialLinksChanged(p, r)
    ensures |r.socialLinks| == |p.socialLinks| + 1
    ensures r.socialLinks[..|p.socialLinks|] == p.socialLinks
    ensures r.socialLinks[|p.socialLinks|] == NewSocialLink(spec, newId, |p.socialLinks|)
  {
    p.(socialLinks := p.socialLinks + [NewSocialLink(spec, newId, |p.socialLinks|)])
  }

  /** `updateSocialLink(linkId, updates)` */
  function UpdateSocialLink(p: Profile, linkId: string, u: SocialLinkPatch): (r: Profile)
    ensures OnlySocialLinksChanged(p, r)
    ensures |r.socialLinks| == |p.socialLinks|
    ensures forall i :: 0 <= i < |p.socialLinks| ==>
      r.socialLinks[i] == if p.socialLinks[i].id == linkId then MergeSocialLink(p.socialLinks[i], u) else p.socialLinks[i]
  {
    p.(socialLinks := UpdateById(p.socialLinks, SocialLinkId, linkId, MergeSocialLink, u))
  }

  /** `deleteSocialLink(linkId)`: the links with that id go, the others stay, not renumbered. */
  function DeleteSocialLink(p: Profile, linkId: string): (r: Profile)
    ensures OnlySocialLinksChanged(p, r)
    ensures forall l :: l in r.socialLinks <==> l in p.socialLinks && l.id != linkId
  {
    p.(socialLinks := RemoveById(p.socialLinks, SocialLinkId, linkId))
  }

  // ---------- Sections ----------

  /** `addSection(mode, section)`: one new section at the end of that mode, its order the old length. */
  function AddSection(p: Profile, mode: ProfileMode, spec: SectionSpec, newId: string): (r: Profile)
    ensures OnlyModeChanged(p, r, mode)
    ensures |SectionsOf(r, mode)| == |SectionsOf(p, mode)| + 1
    ensures SectionsOf(r, mode)[..|SectionsOf(p, mode)|] == SectionsOf(p, mode)
    ensures SectionsOf(r, mode)[|SectionsOf(p, mode)|] == NewSection(spec, newId, |SectionsOf(p, mode)|)
  {
    var ss := SectionsOf(p, mode);
    WithSections(p, mode, ss + [NewSection(spec, newId, |ss|)])
  }

  /** `updateSection(mode, sectionId, updates)` */
  function UpdateSection(p: Profile, mode: ProfileMode, sectionId: string, u: SectionPatch): (r: Profile)
    ensures OnlyModeChanged(p, r, mode)
    ensures |SectionsOf(r, mode)| == |SectionsOf(p, mode)|
    ensures forall i :: 0 <= i < |SectionsOf(p, mode)| ==>
      SectionsOf(r, mode)[i] ==
        if SectionsOf(p, mode)[i].id == sectionId then MergeSection(SectionsOf(p, mode)[i], u)
        else SectionsOf(p, mode)[i]
  {
    WithSections(p, mode, UpdateById(SectionsOf(p, mode), SectionId, sectionId, MergeSection, u))
  }

  /** `deleteSection(mode, sectionId)` */
  function DeleteSection(p: Profile, mode: ProfileMode, sectionId: string): (r: Profile)
    ensures OnlyModeChanged(p, r, mode)
    ensures forall s :: s in SectionsOf(r, mode) <==> s in SectionsOf(p, mode) && s.id != sectionId
  {
    WithSections(p, mode, RemoveById(SectionsOf(p, mode), SectionId, sectionId))
  }

  // ---------- Content blocks ----------

  /** The section a block operation addresses: the right id and a `contentBlocks` list present. */
  predicate HoldsBlocks(s: Section, sectionId: string) {
    s.id == sectionId && s.contentBlocks.Some?
  }

  /** The section a tech operation addresses: the right id and a `techStack` list present. */
  predicate HoldsTech(s: Section, sectionId: string) {
    s.id == sectionId && s.techStack.Some?
  }

  function WithBlocks(s: Section, bs: seq<ContentBlock>): Section { s.(contentBlocks := Some(bs)) }
  function WithTech(s: Section, ts: seq<TechStackItem>): Section { s.(techStack := Some(ts)) }

  function AppendBlockIn(s: Section, spec: ContentBlockSpec, newId: string): Section {
    match s.contentBlocks
    case None => s
    case Some(bs) => WithBlocks(s, bs + [NewBlock(spec, newId, |bs|)])
  }

  function UpdateBlockIn(s: Section, blockId: string, u: ContentBlockPatch): Section {
    match s.contentBlocks
    case None => s
    case Some(bs) => WithBlocks(s, UpdateById(bs, BlockId, blockId, MergeBlock, u))
  }

  function RemoveBlockIn(s: Section, blockId: string): Section {
    match s.contentBlocks
    case None => s
    case Some(bs) => WithBlocks(s, RemoveById(bs, BlockId, blockId))
  }

  /** `addContentBlock(mode, sectionId, block)`: appends to the addressed section only. */
  function AddContentBlock(p: Profile, mode: ProfileMode, sectionId: string, spec: ContentBlockSpec, newId: string): (r: Profile)
    ensures OnlyModeChanged(p, r, mode)
    ensures |SectionsOf(r, mode)| == |SectionsOf(p, mode)|
    ensures forall i :: 0 <= i < |SectionsOf(p, mode)| && !HoldsBlocks(SectionsOf(p, mode)[i], sectionId) ==>
      SectionsOf(r, mode)[i] == SectionsOf(p, mode)[i]
    ensures forall i :: 0 <= i < |SectionsOf(p, mode)| && HoldsBlocks(SectionsOf(p, mode)[i], sectionId) ==>
      var bs := SectionsOf(p, mode)[i].contentBlocks.value;
      SectionsOf(r, mode)[i] == WithBlocks(SectionsOf(p, mode)[i], bs + [NewBlock(spec, newId, |bs|)])
  {
    WithSections(p, mode, MapWhere(SectionsOf(p, mode),
      (s: Section) => HoldsBlocks(s, sectionId), (s: Section) => AppendBlockIn(s, spec, newId)))
  }

  /** `updateContentBlock(mode, sectionId, blockId, updates)` */
  function UpdateContentBlock(p: Profile, mode: ProfileMode, sectionId: string, blockId: string, u: ContentBlockPatch): (r: Profile)
    ensures OnlyModeChanged(p, r, mode)
    ensures |SectionsOf(r, mode)| == |SectionsOf(p, mode)|
    ensures forall i :: 0 <= i < |SectionsOf(p, mode)| && !HoldsBlocks(SectionsOf(p, mode)[i], sectionId) ==>
      SectionsOf(r, mode)[i] == SectionsOf(p, mode)[i]
    ensures forall i :: 0 <= i < |SectionsOf(p, mode)| && HoldsBlocks(SectionsOf(p, mode)[i], sectionId) ==>
      SectionsOf(r, mode)[i] == WithBlocks(SectionsOf(p, mode)[i],
        UpdateById(SectionsOf(p, mode)[i].contentBlocks.value, BlockId, blockId, MergeBlock, u))
  {
    WithSections(p, mode, MapWhere(SectionsOf(p, mode),
      (s: Section) => HoldsBlocks(s, sectionId), (s: Section) => UpdateBlockIn(s, blockId, u)))
  }

  /** `deleteContentBlock(mode, sectionId, blockId)` */
  function DeleteContentBlock(p: Profile, mode: ProfileMode, sectionId: string, blockId: string): (r: Profile)
    ensures OnlyModeChanged(p, r, mode)
    ensures |SectionsOf(r, mode)| == |SectionsOf(p, mode)|
    ensures forall i :: 0 <= i < |SectionsOf(p, mode)| && !HoldsBlocks(SectionsOf(p, mode)[i], sectionId) ==>
      SectionsOf(r, mode)[i] == SectionsOf(p, mode)[i]
    ensures forall i :: 0 <= i < |SectionsOf(p, mode)| && HoldsBlocks(SectionsOf(p, mode)[i], sectionId) ==>
      SectionsOf(r, mode)[i] == WithBlocks(SectionsOf(p, mode)[i],
        RemoveById(SectionsOf(p, mode)[i].contentBlocks.value, BlockId, blockId))
  {
    WithSections(p, mode, MapWhere(SectionsOf(p, mode),
      (s: Section) => HoldsBlocks(s, sectionId), (s: Section) => RemoveBlockIn(s, blockId)))
  }

  // ---------- Tech-stack items ----------

  function AppendTechIn(s: Section, spec: TechStackSpec, newId: string): Section {
    match s.techStack
    case None => s
    case Some(ts) => WithTech(s, ts + [NewTech(spec, newId, |ts|)])
  }

  function UpdateTechIn(s: Section, techId: string, u: TechStackPatch): Section {
    match s.techStack
    case None => s
    case Some(ts) => WithTech(s, UpdateById(ts, TechId, techId, MergeTech, u))
  }

  function RemoveTechIn(s: Section, techId: string): Section {
    match s.techStack
    case None => s
    case Some(ts) => WithTech(s, RemoveById(ts, TechId, techId))
  }

  /** `addTechStack(mode, sectionId, tech)`: appends to the addressed section only. */
  function AddTechStack(p: Profile, mode: ProfileMode, sectionId: string, spec: TechStackSpec, newId: string): (r: Profile)
    ensures OnlyModeChanged(p, r, mode)
    ensures |SectionsOf(r, mode)| == |SectionsOf(p, mode)|
    ensures forall i :: 0 <= i < |SectionsOf(p, mode)| && !HoldsTech(SectionsOf(p, mode)[i], sectionId) ==>
      SectionsOf(r, mode)[i] == SectionsOf(p, mode)[i]
    ensures forall i :: 0 <= i < |SectionsOf(p, mode)| && HoldsTech(SectionsOf(p, mode)[i], sectionId) ==>
      var ts := SectionsOf(p, mode)[i].techStack.value;
      SectionsOf(r, mode)[i] == WithTech(SectionsOf(p, mode)[i], ts + [NewTech(spec, newId, |ts|)])
  {
    WithSections(p, mode, MapWhere(SectionsOf(p, mode),
      (s: Section) => HoldsTech(s, sectionId), (s: Section) => AppendTechIn(s, spec, newId)))
  }

  /** `updateTechStack(mode, sectionId, techId, updates)` */
  function UpdateTechStack(p: Profile, mode: ProfileMode, sectionId: string, techId: string, u: TechStackPatch): (r: Profile)
    ensures OnlyModeChanged(p, r, mode)
    ensures |SectionsOf(r, mode)| == |SectionsOf(p, mode)|
    ensures forall i :: 0 <= i < |SectionsOf(p, mode)| && !HoldsTech(SectionsOf(p, mode)[i], sectionId) ==>
      SectionsOf(r, mode)[i] == SectionsOf(p, mode)[i]
    ensures forall i :: 0 <= i < |SectionsOf(p, mode)| && HoldsTech(SectionsOf(p, mode)[i], sectionId) ==>
      SectionsOf(r, mode)[i] == WithTech(SectionsOf(p, mode)[i],
        UpdateById(SectionsOf(p, mode)[i].techStack.value, TechId, techId, MergeTech, u))
  {
    WithSections(p, mode, MapWhere(SectionsOf(p, mode),
      (s: Section) => HoldsTech(s, sectionId), (s: Section) => UpdateTechIn(s, techId, u)))
  }

  /** `deleteTechStack(mode, sectionId, techId)` */
  function DeleteTechStack(p: Profile, mode: ProfileMode, sectionId: string, techId: string): (r: Profile)
    ensures OnlyModeChanged(p, r, mode)
    ensures |SectionsOf(r, mode)| == |SectionsOf(p, mode)|
    ensures forall i :: 0 <= i < |SectionsOf(p, mode)| && !HoldsTech(SectionsOf(p, mode)[i], sectionId) ==>
      SectionsOf(r, mode)[i] == SectionsOf(p, mode)[i]
    ensures forall i :: 0 <= i < |SectionsOf(p, mode)| && HoldsTech(SectionsOf(p, mode)[i], sectionId) ==>
      SectionsOf(r, mode)[i] == WithTech(SectionsOf(p, mode)[i],
        RemoveById(SectionsOf(p, mode)[i].techStack.value, TechId, techId))
  {
    WithSections(p, mode, MapWhere(SectionsOf(p, mode),
      (s: Section) => HoldsTech(s, sectionId), (s: Section) => RemoveTechIn(s, techId)))
  }
}
