/**
 * The starting template the engine is initialised with, the empty-profile
 * helper built from it, and the format of generated ids.
 */
module DefaultProfile {
  import opened Wrappers
  import opened ProfileTypes
  import opened KeyedLists
  import opened ProfileInvariants

  /** `defaultProfile` */
  const Template: Profile := Profile(
    "default-profile",
    PersonalInfo("Your Name", "Your Title / Role", "your.email@example.com", "+63 XXX-XXX-XXXX", "", true, None, None),
    [],
    DisplaySettings(true, true, Web2),
    ModeContent([
      Section("web2-section-1", "Tech Stack", TechStack, None, Some([]), 0),
      Section("web2-section-2", "Past Projects", Content, Some([
        ContentBlock("web2-block-1", Title, "Project Title", None, 0),
        ContentBlock("web2-block-2", Context, "Brief description of your project", Some("2024"), 1)
      ]), None, 1),
      Section("web2-section-3", "Educational Attainment", Content, Some([
        ContentBlock("web2-block-3", Title, "School Name", None, 0),
        ContentBlock("web2-block-4", Context, "Degree / Course", Some("2020 - 2024"), 1)
      ]), None, 2)
    ]),
    ModeContent([
      Section("web3-section-1", "Communities", TechStack, None, Some([]), 0),
      Section("web3-section-2", "Web3 Footprints", Content, Some([
        ContentBlock("web3-block-1", Title, "Community Ambassador", None, 0),
        ContentBlock("web3-block-2", Context, "Role description and contributions", Some("2024"), 1)
      ]), None, 1)
    ]),
    Theme(BackgroundConfig(NoBackground, "#ffffff", 50, 50, false), "#3b82f6", "#000000"))

  /** The decimal digits of `n`, as `${n}` prints it. */
  function Decimal(n: nat): (r: string)
    ensures |r| >= 1
    ensures forall i :: 0 <= i < |r| ==> '0' <= r[i] <= '9'
    ensures r[0] == '0' ==> n == 0
    ensures DigitsValue(r) == n
    decreases n
  {
    if n < 10 then [Digit(n)]
    else
      var r := Decimal(n / 10) + [Digit(n % 10)];
      assert r[..|r| - 1] == Decimal(n / 10);
      r
  }

  function Digit(d: nat): (c: char)
    requires d < 10
    ensures '0' <= c <= '9' && c as int - '0' as int == d
  {
    ['0', '1', '2', '3', '4', '5', '6', '7', '8', '9'][d]
  }

  /** The number a string of decimal digits denotes, most significant digit first. */
  function DigitsValue(s: string): nat
    requires forall i :: 0 <= i < |s| ==> '0' <= s[i] <= '9'
  {
    if s == [] then 0 else 10 * DigitsValue(s[..|s| - 1]) + (s[|s| - 1] as int - '0' as int)
  }

  /** Distinct numbers print differently. */
  lemma DecimalIsInjective(a: nat, b: nat)
    requires Decimal(a) == Decimal(b)
    ensures a == b
  {
    assert DigitsValue(Decimal(a)) == a && DigitsValue(Decimal(b)) == b;
  }

  /**
   * `generateId(prefix)`: `${prefix}-${Date.now()}-${suffix}`. The clock
   * reading and the random suffix are parameters.
   */
  function GenerateId(prefix: string, now: nat, suffix: string): (r: string)
    ensures |r| == |prefix| + |Decimal(now)| + |suffix| + 2
    ensures prefix + "-" <= r
    ensures r[|prefix| + 1 + |Decimal(now)|] == '-'
    ensures r[|r| - |suffix|..] == suffix
  {
    prefix + "-" + Decimal(now) + "-" + suffix
  }

  /** Two ids generated with the same prefix and suffix at different clock readings differ. */
  lemma GeneratedIdsDiffer(prefix: string, now1: nat, now2: nat, suffix: string)
    requires now1 != now2
    ensures GenerateId(prefix, now1, suffix) != GenerateId(prefix, now2, suffix)
  {
    if GenerateId(prefix, now1, suffix) == GenerateId(prefix, now2, suffix) {
      var r := GenerateId(prefix, now1, suffix);
      var d1, d2 := Decimal(now1), Decimal(now2);
      assert |d1| == |d2|;
      assert r[|prefix| + 1..|prefix| + 1 + |d1|] == d1;
      assert GenerateId(prefix, now2, suffix)[|prefix| + 1..|prefix| + 1 + |d2|] == d2;
      DecimalIsInjective(now1, now2);
    }
  }

  /**
   * `createEmptyProfile()`: the template's display settings and theme, a
   * copy of its personal info, no links and no sections, and the id
   * `profile-${Date.now()}` with the clock reading as a parameter.
   */
  function CreateEmptyProfile(now: nat): (r: Profile)
    ensures r.id == "profile-" + Decimal(now)
    ensures r.personal == Template.personal
    ensures r.displaySettings == Template.displaySettings && r.theme == Template.theme
    ensures r.socialLinks == [] && SectionsOf(r, Web2) == [] && SectionsOf(r, Web3) == []
  {
    Template.(id := "profile-" + Decimal(now), socialLinks := [],
              web2 := ModeContent([]), web3 := ModeContent([]))
  }

  /** Empty profiles created at different clock readings get different ids. */
  lemma EmptyProfileIdsDiffer(now1: nat, now2: nat)
    requires now1 != now2
    ensures CreateEmptyProfile(now1).id != CreateEmptyProfile(now2).id
  {
    var id1, id2 := CreateEmptyProfile(now1).id, CreateEmptyProfile(now2).id;
    assert id1[8..] == Decimal(now1) && id2[8..] == Decimal(now2);
    if id1 == id2 {
      DecimalIsInjective(now1, now2);
    }
  }

  /** An empty profile satisfies every document invariant, vacuously. */
  lemma EmptyProfileIsTidy(now: nat)
    ensures Tidy(CreateEmptyProfile(now))
  {
    var r := CreateEmptyProfile(now);
    assert forall m: ProfileMode :: SectionsOf(r, m) == [];
  }

  /** Every section and block id the template uses, web2 first. */
  function TemplateIds(): seq<string> {
    ["web2-section-1", "web2-section-2", "web2-block-1", "web2-block-2",
     "web2-section-3", "web2-block-3", "web2-block-4",
     "web3-section-1", "web3-section-2", "web3-block-1", "web3-block-2"]
  }

  /** Each template section fills only the collection its type names. */
  lemma TemplateIsWellTyped()
    ensures WellTyped(Template)
  {
    forall m: ProfileMode, i | 0 <= i < |SectionsOf(Template, m)| ensures SectionTyped(SectionsOf(Template, m)[i]) {
      if m == Web2 {
        assert i == 0 || i == 1 || i == 2;
      } else {
        assert i == 0 || i == 1;
      }
    }
  }

  /** Section orders are 0, 1, 2 (web2) and 0, 1 (web3) in position; every block list is numbered 0, 1. */
  lemma TemplateIsNumbered()
    ensures Numbered(Template)
  {
    forall m: ProfileMode ensures OrdersArePositions(SectionsOf(Template, m), SectionOrder) {
    }
    forall m: ProfileMode, i | 0 <= i < |SectionsOf(Template, m)| ensures ChildOrdersOk(SectionsOf(Template, m)[i]) {
      if m == Web2 {
        assert i == 0 || i == 1 || i == 2;
      } else {
        assert i == 0 || i == 1;
      }
    }
  }

  /** Ids are distinct within every collection of the template. */
  lemma TemplateHasUniqueIds()
    ensures UniqueIds(Template)
  {
    var w2, w3 := SectionsOf(Template, Web2), SectionsOf(Template, Web3);
    assert w2[0].id[13] != w2[1].id[13] && w2[0].id[13] != w2[2].id[13] && w2[1].id[13] != w2[2].id[13];
    assert w3[0].id[13] != w3[1].id[13];
    forall m: ProfileMode, i | 0 <= i < |SectionsOf(Template, m)| ensures ChildIdsOk(SectionsOf(Template, m)[i]) {
      var s := SectionsOf(Template, m)[i];
      if s.contentBlocks.Some? {
        var bs := s.contentBlocks.value;
        assert |bs| == 2 && bs[0].id[11] != bs[1].id[11];
      }
    }
  }

  /** The template satisfies every document invariant. */
  lemma TemplateIsTidy()
    ensures Tidy(Template)
  {
    TemplateIsWellTyped();
    TemplateIsNumbered();
    TemplateHasUniqueIds();
  }

  /** All section and block ids in the template are pairwise distinct, across both modes. */
  lemma TemplateIdsAreDistinct()
    ensures forall i, j :: 0 <= i < j < |TemplateIds()| ==> TemplateIds()[i] != TemplateIds()[j]
  {
    var ids := TemplateIds();
    forall i, j | 0 <= i < j < |ids| ensures ids[i] != ids[j] {
      // "web2-..." and "web3-..." differ at index 3; same-mode ids differ in kind or in the last digit.
      assert ids[i][3] != ids[j][3] || ids[i][5] != ids[j][5] || ids[i][|ids[i]| - 1] != ids[j][|ids[j]| - 1];
    }
  }

  /** The ids of a keyed list, in list order. */
  function IdsOf<T>(s: seq<T>, idOf: T -> string): (r: seq<string>)
    ensures |r| == |s| && forall i :: 0 <= i < |s| ==> r[i] == idOf(s[i])
  {
    if s == [] then [] else [idOf(s[0])] + IdsOf(s[1..], idOf)
  }

  /** Each section's id followed by the ids of its blocks and then of its tech items, section by section. */
  function SectionIds(ss: seq<Section>): seq<string> {
    if ss == [] then []
    else [ss[0].id] + IdsOf(ss[0].contentBlocks.GetOr([]), BlockId) + IdsOf(ss[0].techStack.GetOr([]), TechId) +
         SectionIds(ss[1..])
  }

  /** Every id a profile document carries: its links', then web2's and web3's sections and their children. */
  function AllIds(p: Profile): seq<string> {
    IdsOf(p.socialLinks, SocialLinkId) + SectionIds(SectionsOf(p, Web2)) + SectionIds(SectionsOf(p, Web3))
  }

  /** `TemplateIds` lists exactly the ids the template carries, in document order. */
  lemma TemplateIdsAreTheTemplatesIds()
    ensures AllIds(Template) == TemplateIds()
  {
  }

  /** No id occurs twice anywhere in the template, across collections and modes. */
  lemma TemplateIdsAreDistinctAcrossCollections()
    ensures forall i, j :: 0 <= i < j < |AllIds(Template)| ==> AllIds(Template)[i] != AllIds(Template)[j]
  {
    TemplateIdsAreTheTemplatesIds();
    TemplateIdsAreDistinct();
  }
}
