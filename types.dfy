/**
 * The document shape that the profile editor engine reads and writes:
 * one profile with a single `personal`, a single list of social links,
 * display settings, two modes (`web2`, `web3`) that each hold only a list
 * of sections, and a theme holding the background.
 *
 * Optional TypeScript properties (`duration?`, `contentBlocks?`, ...) are
 * `Option`s. A `Partial<X>` update is a patch record of `Option`s; for a
 * property that is itself optional the patch entry is `Option<Option<T>>`,
 * where `Some(None)` is an explicit `undefined` (which the JSON form treats
 * like an absent property).
 */
module ProfileTypes {
  import opened Wrappers

  datatype ProfileMode = Web2 | Web3
  datatype ContentBlockType = Title | Context
  datatype SectionType = Content | TechStack
  datatype BackgroundType = NoBackground | Particles | Grid | Gradient | Meteors
  datatype SocialPlatform =
    | LinkedIn | GitHub | Email | Website | Twitter | Facebook
    | Instagram | YouTube | TikTok | Behance | Dribbble | Medium

  datatype PersonalInfo = PersonalInfo(
    name: string,
    title: string,
    email: string,
    phone: string,
    image: string,
    imageIs3D: bool,
    enable3D: Option<bool>,
    enableGradient: Option<bool>)

  datatype SocialLink = SocialLink(id: string, platform: SocialPlatform, url: string, order: int)

  datatype DisplaySettings = DisplaySettings(showWeb2: bool, showWeb3: bool, defaultView: ProfileMode)

  datatype ContentBlock = ContentBlock(
    id: string,
    kind: ContentBlockType,
    content: string,
    duration: Option<string>,
    order: int)

  datatype TechStackItem = TechStackItem(id: string, name: string, icon: string, order: int)

  datatype Section = Section(
    id: string,
    name: string,
    kind: SectionType,
    contentBlocks: Option<seq<ContentBlock>>,
    techStack: Option<seq<TechStackItem>>,
    order: int)

  /** A mode record: the engine rebuilds it as `{ sections }`, so it holds nothing else. */
  datatype ModeContent = ModeContent(sections: seq<Section>)

  datatype BackgroundConfig = BackgroundConfig(
    kind: BackgroundType,
    color: string,
    speed: int,
    density: int,
    interactive: bool)

  datatype Theme = Theme(background: BackgroundConfig, accentColor: string, textColor: string)

  datatype Profile = Profile(
    id: string,
    personal: PersonalInfo,
    socialLinks: seq<SocialLink>,
    displaySettings: DisplaySettings,
    web2: ModeContent,
    web3: ModeContent,
    theme: Theme)

  // ---------- What the add operations receive: the entity without `id` and `order` ----------

  datatype SocialLinkSpec = SocialLinkSpec(platform: SocialPlatform, url: string)
  datatype SectionSpec = SectionSpec(
    name: string,
    kind: SectionType,
    contentBlocks: Option<seq<ContentBlock>>,
    techStack: Option<seq<TechStackItem>>)
  datatype ContentBlockSpec = ContentBlockSpec(kind: ContentBlockType, content: string, duration: Option<string>)
  datatype TechStackSpec = TechStackSpec(name: string, icon: string)

  // ---------- What the update operations receive: `Partial<X>` ----------

  datatype PersonalPatch = PersonalPatch(
    name: Option<string>,
    title: Option<string>,
    email: Option<string>,
    phone: Option<string>,
    image: Option<string>,
    imageIs3D: Option<bool>,
    enable3D: Option<Option<bool>>,
    enableGradient: Option<Option<bool>>)

  datatype SocialLinkPatch = SocialLinkPatch(
    id: Option<string>,
    platform: Option<SocialPlatform>,
    url: Option<string>,
    order: Option<int>)

  datatype DisplayPatch = DisplayPatch(
    showWeb2: Option<bool>,
    showWeb3: Option<bool>,
    defaultView: Option<ProfileMode>)

  datatype SectionPatch = SectionPatch(
    id: Option<string>,
    name: Option<string>,
    kind: Option<SectionType>,
    contentBlocks: Option<Option<seq<ContentBlock>>>,
    techStack: Option<Option<seq<TechStackItem>>>,
    order: Option<int>)

  datatype ContentBlockPatch = ContentBlockPatch(
    id: Option<string>,
    kind: Option<ContentBlockType>,
    content: Option<string>,
    duration: Option<Option<string>>,
    order: Option<int>)

  datatype TechStackPatch = TechStackPatch(
    id: Option<string>,
    name: Option<string>,
    icon: Option<string>,
    order: Option<int>)

  datatype BackgroundPatch = BackgroundPatch(
    kind: Option<BackgroundType>,
    color: Option<string>,
    speed: Option<int>,
    density: Option<int>,
    interactive: Option<bool>)

  // ---------- Accessors used by the generic list operations ----------

  function SocialLinkId(l: SocialLink): string { l.id }
  function SocialLinkOrder(l: SocialLink): int { l.order }
  function SectionId(s: Section): string { s.id }
  function SectionOrder(s: Section): int { s.order }
  function BlockId(b: ContentBlock): string { b.id }
  function BlockOrder(b: ContentBlock): int { b.order }
  function TechId(t: TechStackItem): string { t.id }
  function TechOrder(t: TechStackItem): int { t.order }

  /** `profile[mode]` */
  function ModeOf(p: Profile, mode: ProfileMode): ModeContent {
    match mode
    case Web2 => p.web2
    case Web3 => p.web3
  }

  /** `profile[mode].sections` */
  function SectionsOf(p: Profile, mode: ProfileMode): seq<Section> {
    ModeOf(p, mode).sections
  }

  /** `{ ...prev, [mode]: { sections } }` */
  function WithSections(p: Profile, mode: ProfileMode, sections: seq<Section>): (r: Profile)
    ensures SectionsOf(r, mode) == sections
    ensures forall m :: m != mode ==> ModeOf(r, m) == ModeOf(p, m)
    ensures r.id == p.id && r.personal == p.personal && r.socialLinks == p.socialLinks
    ensures r.displaySettings == p.displaySettings && r.theme == p.theme
  {
    match mode
    case Web2 => p.(web2 := ModeContent(sections))
    case Web3 => p.(web3 := ModeContent(sections))
  }

  /** The other mode. */
  function Other(mode: ProfileMode): ProfileMode {
    match mode
    case Web2 => Web3
    case Web3 => Web2
  }
}
