/**
 * The cookie banner: it appears only when no consent is stored, and each
 * of its choices stores a consent record and hides it.
 */
module CookieConsent {
  import opened Base

  const ConsentVersion := "1.0"

  /** The stored `cookie-consent` record; `timestamp` is the ISO time of the choice. */
  datatype Consent = Consent(essential: bool, analytics: Option<bool>, marketing: Option<bool>,
                             timestamp: string, version: string)

  /** Preferences a custom save is given; a missing key is `None`. */
  datatype Preferences = Preferences(essential: Option<bool>, analytics: Option<bool>, marketing: Option<bool>)

  /** A record the banner writes: essential cookies on, current version. */
  predicate Recorded(c: Consent, now: string)
  {
    c.essential && c.version == ConsentVersion && c.timestamp == now
  }

  /** "Accept All": analytics on, marketing still off. */
  function AcceptAllConsent(now: string): (c: Consent)
    ensures Recorded(c, now) && c.analytics == Some(true) && c.marketing == Some(false)
  {
    Consent(true, Some(true), Some(false), now, ConsentVersion)
  }

  /** "Essential Only": analytics and marketing off. */
  function EssentialConsent(now: string): (c: Consent)
    ensures Recorded(c, now) && c.analytics == Some(false) && c.marketing == Some(false)
  {
    Consent(true, Some(false), Some(false), now, ConsentVersion)
  }

  /** `saveCustomPreferences`: the given choices, with essential forced on. */
  function CustomConsent(p: Preferences, now: string): (c: Consent)
    ensures Recorded(c, now) && c.analytics == p.analytics && c.marketing == p.marketing
  {
    Consent(true, p.analytics, p.marketing, now, ConsentVersion)
  }

  /** No choice can turn essential cookies off or switch marketing on, except a custom save that asks for it. */
  lemma ConsentChoices(p: Preferences, now: string)
    ensures CustomConsent(p, now).essential
    ensures CustomConsent(Preferences(p.essential, Some(true), Some(false)), now) == AcceptAllConsent(now)
    ensures CustomConsent(Preferences(p.essential, Some(false), Some(false)), now) == EssentialConsent(now)
    ensures AcceptAllConsent(now) != EssentialConsent(now)
  {
  }

  class CookieBanner {
    /** The `cookie-consent` item of local storage, when one is stored. */
    var stored: Option<Consent>
    var showBanner: bool
    var showDetails: bool
    /** The one-second timer that will show the banner is pending. */
    var bannerScheduled: bool

    constructor (stored: Option<Consent>)
      ensures this.stored == stored && !showBanner && !showDetails && !bannerScheduled
    {
      this.stored := stored;
      showBanner := false;
      showDetails := false;
      bannerScheduled := false;
    }

    /** The mount effect: the banner is scheduled only when no consent is stored. */
    method Mount()
      modifies this`bannerScheduled
      ensures bannerScheduled <==> stored.None?
    {
      bannerScheduled := stored.None?;
    }

    /** The timer fires and shows the banner. */
    method BannerTimerElapsed()
      requires bannerScheduled
      modifies this`showBanner, this`bannerScheduled
      ensures showBanner && !bannerScheduled
    {
      showBanner := true;
      bannerScheduled := false;
    }

    /** "Customize" and "Back". */
    method ShowDetails(show: bool)
      modifies this`showDetails
      ensures showDetails == show
    {
      showDetails := show;
    }

    method AcceptAll(now: string)
      modifies this`stored, this`showBanner
      ensures stored == Some(AcceptAllConsent(now)) && !showBanner
    {
      stored := Some(AcceptAllConsent(now));
      showBanner := false;
    }

    method AcceptEssential(now: string)
      modifies this`stored, this`showBanner
      ensures stored == Some(EssentialConsent(now)) && !showBanner
    {
      stored := Some(EssentialConsent(now));
      showBanner := false;
    }

    method SaveCustomPreferences(p: Preferences, now: string)
      modifies this`stored, this`showBanner
      ensures stored == Some(CustomConsent(p, now)) && !showBanner
    {
      stored := Some(CustomConsent(p, now));
      showBanner := false;
    }
  }
}
