/**
 * The profile provider: the draft (`profile`), the last saved copy
 * (`savedProfile`), the mode being edited, and the stored blob under
 * `portfolio-profile`. Each edit method applies the matching pure
 * operation of ProfileOps to the draft and touches nothing else.
 *
 * `JSON.stringify` and `JSON.parse` are parameters: `serialize`,
 * `serializePretty` (the two-space form used by export) and `parse`, whose
 * `None` is a thrown parse error.
 */
module ProfileContext {
  import opened Wrappers
  import opened ProfileTypes
  import opened ProfileOps
  import opened ProfileInvariants
  import opened DefaultProfile

  /** Two profiles never share a serialised form. */
  ghost predicate Injective(serialize: Profile -> string) {
    forall a, b :: serialize(a) == serialize(b) ==> a == b
  }

  /** `if (savedData)`: a missing or empty stored string is skipped. */
  predicate Present(stored: Option<string>) {
    stored.Some? && stored.value != ""
  }

  class ProfileProvider {
    var profile: Profile
    var savedProfile: Profile
    var currentMode: ProfileMode
    /** `localStorage.getItem('portfolio-profile')`, `None` when absent. */
    var stored: Option<string>

    /** Both copies start as the template, the mode as web2. */
    constructor (storage: Option<string>)
      ensures profile == Template && savedProfile == Template
      ensures currentMode == Web2 && stored == storage
    {
      profile := Template;
      savedProfile := Template;
      currentMode := Web2;
      stored := storage;
    }

    /** `hasUnsavedChanges`: the draft's JSON differs from the saved copy's. */
    function HasUnsavedChanges(serialize: Profile -> string): (r: bool)
      reads this
      ensures profile == savedProfile ==> !r
      ensures Injective(serialize) ==> (r <==> profile != savedProfile)
    {
      serialize(profile) != serialize(savedProfile)
    }

    /** The load-on-mount effect: a stored value that parses becomes both copies; otherwise nothing changes. */
    method LoadOnMount(parse: string -> Option<Profile>)
      modifies this`profile, this`savedProfile
      ensures Present(stored) && parse(stored.value).Some? ==>
        profile == parse(stored.value).value && savedProfile == profile
      ensures !(Present(stored) && parse(stored.value).Some?) ==>
        profile == old(profile) && savedProfile == old(savedProfile)
    {
      if Present(stored) {
        var parsed := parse(stored.value);
        if parsed.Some? {
          profile := parsed.value;
          savedProfile := parsed.value;
        }
      }
    }

    method SetCurrentMode(mode: ProfileMode)
      modifies this`currentMode
      ensures currentMode == mode
    {
      currentMode := mode;
    }

    method UpdatePersonalInfo(u: PersonalPatch)
      modifies this`profile
      ensures profile == ProfileOps.UpdatePersonalInfo(old(profile), u)
    {
      profile := ProfileOps.UpdatePersonalInfo(profile, u);
    }

    method AddSocialLink(spec: SocialLinkSpec, newId: string)
      modifies this`profile
      ensures profile == ProfileOps.AddSocialLink(old(profile), spec, newId)
    {
      profile := ProfileOps.AddSocialLink(profile, spec, newId);
    }

    method UpdateSocialLink(linkId: string, u: SocialLinkPatch)
      modifies this`profile
      ensures profile == ProfileOps.UpdateSocialLink(old(profile), linkId, u)
    {
      profile := ProfileOps.UpdateSocialLink(profile, linkId, u);
    }

    method DeleteSocialLink(linkId: string)
      modifies this`profile
      ensures profile == ProfileOps.DeleteSocialLink(old(profile), linkId)
    {
      profile := ProfileOps.DeleteSocialLink(profile, linkId);
    }

    method UpdateDisplaySettings(u: DisplayPatch)
      modifies this`profile
      ensures profile == ProfileOps.UpdateDisplaySettings(old(profile), u)
    {
      profile := ProfileOps.UpdateDisplaySettings(profile, u);
    }

    method AddSection(mode: ProfileMode, spec: SectionSpec, newId: string)
      modifies this`profile
      ensures profile == ProfileOps.AddSection(old(profile), mode, spec, newId)
    {
      profile := ProfileOps.AddSection(profile, mode, spec, newId);
    }

    method UpdateSection(mode: ProfileMode, sectionId: string, u: SectionPatch)
      modifies this`profile
      ensures profile == ProfileOps.UpdateSection(old(profile), mode, sectionId, u)
    {
      profile := ProfileOps.UpdateSection(profile, mode, sectionId, u);
    }

    method DeleteSection(mode: ProfileMode, sectionId: string)
      modifies this`profile
      ensures profile == ProfileOps.DeleteSection(old(profile), mode, sectionId)
    {
      profile := ProfileOps.DeleteSection(profile, mode, sectionId);
    }

    method AddContentBlock(mode: ProfileMode, sectionId: string, spec: ContentBlockSpec, newId: string)
      modifies this`profile
      ensures profile == ProfileOps.AddContentBlock(old(profile), mode, sectionId, spec, newId)
    {
      profile := ProfileOps.AddContentBlock(profile, mode, sectionId, spec, newId);
    }

    method UpdateContentBlock(mode: ProfileMode, sectionId: string, blockId: string, u: ContentBlockPatch)
      modifies this`profile
      ensures profile == ProfileOps.UpdateContentBlock(old(profile), mode, sectionId, blockId, u)
    {
      profile := ProfileOps.UpdateContentBlock(profile, mode, sectionId, blockId, u);
    }

    method DeleteContentBlock(mode: ProfileMode, sectionId: string, blockId: string)
      modifies this`profile
      ensures profile == ProfileOps.DeleteContentBlock(old(profile), mode, sectionId, blockId)
    {
      profile := ProfileOps.DeleteContentBlock(profile, mode, sectionId, blockId);
    }

    method AddTechStack(mode: ProfileMode, sectionId: string, spec: TechStackSpec, newId: string)
      modifies this`profile
      ensures profile == ProfileOps.AddTechStack(old(profile), mode, sectionId, spec, newId)
    {
      profile := ProfileOps.AddTechStack(profile, mode, sectionId, spec, newId);
    }

    method UpdateTechStack(mode: ProfileMode, sectionId: string, techId: string, u: TechStackPatch)
      modifies this`profile
      ensures profile == ProfileOps.UpdateTechStack(old(profile), mode, sectionId, techId, u)
    {
      profile := ProfileOps.UpdateTechStack(profile, mode, sectionId, techId, u);
    }

    method DeleteTechStack(mode: ProfileMode, sectionId: string, techId: string)
      modifies this`profile
      ensures profile == ProfileOps.DeleteTechStack(old(profile), mode, sectionId, techId)
    {
      profile := ProfileOps.DeleteTechStack(profile, mode, sectionId, techId);
    }

    method UpdateBackground(u: BackgroundPatch)
      modifies this`profile
      ensures profile == ProfileOps.UpdateBackground(old(profile), u)
    {
      profile := ProfileOps.UpdateBackground(profile, u);
    }

    /** `saveChanges()`: stores the draft's JSON and makes the draft the saved copy. */
    method SaveChanges(serialize: Profile -> string)
      modifies this`savedProfile, this`stored
      ensures savedProfile == profile
      ensures stored == Some(serialize(profile))
      ensures !HasUnsavedChanges(serialize)
    {
      stored := Some(serialize(profile));
      savedProfile := profile;
    }

    /** `discardChanges()`: the draft goes back to the saved copy. */
    method DiscardChanges()
      modifies this`profile
      ensures profile == savedProfile
    {
      profile := savedProfile;
    }

    /** `exportProfile()`: the draft's pretty-printed JSON; nothing changes. */
    method ExportProfile(serializePretty: Profile -> string) returns (json: string)
      ensures json == serializePretty(profile)
    {
      json := serializePretty(profile);
    }

    /**
     * `importProfile(jsonString)`: a string that parses becomes both copies
     * and is stored as given; one that does not changes nothing.
     */
    method ImportProfile(json: string, parse: string -> Option<Profile>)
      modifies this`profile, this`savedProfile, this`stored
      ensures parse(json).Some? ==>
        profile == parse(json).value && savedProfile == profile && stored == Some(json)
      ensures parse(json).None? ==>
        profile == old(profile) && savedProfile == old(savedProfile) && stored == old(stored)
    {
      var imported := parse(json);
      if imported.Some? {
        profile := imported.value;
        savedProfile := imported.value;
        stored := Some(json);
      }
    }
  }

  // ---------- Sequences of calls, as a caller sees them ----------

  /** Saving and then discarding leaves the draft as it was, with nothing unsaved. */
  method SaveThenDiscard(e: ProfileProvider, serialize: Profile -> string)
    modifies e
    ensures e.profile == old(e.profile) && e.savedProfile == old(e.profile)
    ensures !e.HasUnsavedChanges(serialize)
  {
    e.SaveChanges(serialize);
    e.DiscardChanges();
  }

  /**
   * An edit of an unmodified profile, then a discard: in between, the edit
   * shows as unsaved exactly when it changed the personal info (given an
   * injective serialiser); afterwards the saved copy is back.
   */
  method EditThenDiscard(e: ProfileProvider, u: PersonalPatch, serialize: Profile -> string)
      returns (dirtyBetween: bool)
    requires Injective(serialize)
    requires e.profile == e.savedProfile
    modifies e
    ensures dirtyBetween <==> MergePersonal(old(e.profile).personal, u) != old(e.profile).personal
    ensures e.profile == old(e.savedProfile) && !e.HasUnsavedChanges(serialize)
  {
    e.UpdatePersonalInfo(u);
    dirtyBetween := e.HasUnsavedChanges(serialize);
    e.DiscardChanges();
  }

  /** Exporting and importing the result, with a codec that round-trips, changes no profile and leaves nothing unsaved. */
  method ExportThenImport(e: ProfileProvider, serializePretty: Profile -> string, parse: string -> Option<Profile>,
                          serialize: Profile -> string)
    requires forall p :: parse(serializePretty(p)) == Some(p)
    modifies e
    ensures e.profile == old(e.profile) && e.savedProfile == old(e.profile)
    ensures !e.HasUnsavedChanges(serialize)
  {
    var json := e.ExportProfile(serializePretty);
    e.ImportProfile(json, parse);
  }

  /** A freshly mounted provider with nothing stored holds the template, which is tidy, with nothing unsaved. */
  method MountWithoutStorage(parse: string -> Option<Profile>, serialize: Profile -> string) returns (e: ProfileProvider)
    ensures e.profile == Template && Tidy(e.profile)
    ensures !e.HasUnsavedChanges(serialize)
  {
    e := new ProfileProvider(None);
    e.LoadOnMount(parse);
    TemplateIsTidy();
  }
}
