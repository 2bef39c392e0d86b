/** The AI settings editor: three focus toggles, a tone and a language, loaded from and saved to storage. */
module SettingsPage {
  import opened Types
  import GeminiService

  /** The three toggles of `toggleSetting`. */
  datatype Flag = RiskAssessment | ResourceOptimization | ProgressForecasting

  /** The page's initial state: the same record as the service's defaults. */
  const InitialSettings: AISettings := AISettings(true, false, true, Professional, Vi)

  lemma InitialIsDefault()
    ensures InitialSettings == GeminiService.DefaultSettings
  {
  }

  /** `{ ...prev, [key]: !prev[key] }` */
  function Toggled(s: AISettings, flag: Flag): (t: AISettings)
    ensures t.reportTone == s.reportTone && t.language == s.language
    ensures t.riskAssessment == (if flag == RiskAssessment then !s.riskAssessment else s.riskAssessment)
    ensures t.resourceOptimization == (if flag == ResourceOptimization then !s.resourceOptimization else s.resourceOptimization)
    ensures t.progressForecasting == (if flag == ProgressForecasting then !s.progressForecasting else s.progressForecasting)
  {
    match flag
    case RiskAssessment => s.(riskAssessment := !s.riskAssessment)
    case ResourceOptimization => s.(resourceOptimization := !s.resourceOptimization)
    case ProgressForecasting => s.(progressForecasting := !s.progressForecasting)
  }

  /** Toggling a flag twice restores the settings. */
  lemma ToggleTwice(s: AISettings, flag: Flag)
    ensures Toggled(Toggled(s, flag), flag) == s
  {
  }

  /** Toggles of two different flags commute. */
  lemma TogglesCommute(s: AISettings, f: Flag, g: Flag)
    ensures Toggled(Toggled(s, f), g) == Toggled(Toggled(s, g), f)
  {
  }

  /** The mount effect: a parsed stored record replaces the state; anything else keeps it. */
  function Loaded(current: AISettings, stored: GeminiService.Stored): (s: AISettings)
    ensures stored.Parsed? ==> s == stored.settings
    ensures !stored.Parsed? ==> s == current
  {
    if stored.Parsed? then stored.settings else current
  }

  /** On a fresh page the loaded settings are the ones the service resolves from the same storage. */
  lemma PageAgreesWithService(stored: GeminiService.Stored)
    ensures Loaded(InitialSettings, stored) == GeminiService.GetSettings(stored)
  {
  }

  /**
   * What `localStorage.setItem(key, JSON.stringify(settings))` leaves for the next read, under the
   * assumption that JSON serialisation of a settings record parses back to the same record.
   */
  function Written(s: AISettings): (stored: GeminiService.Stored)
    ensures stored.Parsed? && stored.settings == s
  {
    GeminiService.Parsed(s)
  }

  class SettingsState {
    var settings: AISettings
    var isSaved: bool

    constructor ()
      ensures settings == GeminiService.DefaultSettings && !isSaved
    {
      settings := InitialSettings;
      isSaved := false;
    }

    method Load(stored: GeminiService.Stored)
      modifies this
      ensures settings == Loaded(old(settings), stored) && isSaved == old(isSaved)
    {
      if stored.Parsed? {
        settings := stored.settings;
      }
    }

    /** `handleSave`: writes the settings and raises the saved flag. */
    method Save() returns (written: GeminiService.Stored)
      modifies this
      ensures written == Written(settings) && settings == old(settings) && isSaved
    {
      written := Written(settings);
      isSaved := true;
    }

    method ToggleSetting(flag: Flag)
      modifies this
      ensures settings == Toggled(old(settings), flag) && isSaved == old(isSaved)
    {
      settings := Toggled(settings, flag);
    }

    method SetLanguage(l: Language)
      modifies this
      ensures settings == old(settings).(language := l) && isSaved == old(isSaved)
    {
      settings := settings.(language := l);
    }

    method SetTone(t: ReportTone)
      modifies this
      ensures settings == old(settings).(reportTone := t) && isSaved == old(isSaved)
    {
      settings := settings.(reportTone := t);
    }

    /**
     * Saving and then loading on another page shows the saved settings, and the report service
     * resolves the same record.
     */
    method SaveThenReload(other: SettingsState)
      requires other != this
      modifies this, other
      ensures other.settings == old(settings) && settings == old(settings)
      ensures GeminiService.GetSettings(Written(old(settings))) == old(settings)
    {
      var written := Save();
      other.Load(written);
    }
  }
}
