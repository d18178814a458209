/** The animated language switcher (src/components/layout/LanguageSwitcher.tsx):
    a click starts a transition, a timer completes it, and two pure functions
    place the sliding indicator and pick each button's style. */
module LanguageSwitcher {
  import opened JsBuiltins

  /** The switcher's state: the current i18n language, the `isTransitioning`
      flag, and the target captured by the scheduled timer callback, if any. */
  class Switcher {
    var language: string
    var isTransitioning: bool
    var pending: Option<string>

    /** A timer is scheduled exactly while a transition is shown, and it targets
        a language other than the current one. */
    ghost predicate Valid()
      reads this
    {
      && (isTransitioning <==> pending.Some?)
      && (pending.Some? ==> pending.value != language)
    }

    constructor (current: string)
      ensures language == current && !isTransitioning && pending == None
      ensures Valid()
    {
      language, isTransitioning, pending := current, false, None;
    }

    /** `changeLanguage(lng)`: ignored when `lng` is already current or a switch
        is in progress; otherwise the transition starts and the timer is set,
        with the language left as it was. */
    method ChangeLanguage(lng: string)
      requires Valid()
      modifies this
      ensures Valid()
      ensures language == old(language)
      ensures if lng == old(language) || old(isTransitioning)
              then isTransitioning == old(isTransitioning) && pending == old(pending)
              else isTransitioning && pending == Some(lng)
    {
      if lng == language || isTransitioning {
        return;
      }
      isTransitioning := true;
      pending := Some(lng);
    }

    /** The timer callback: the language becomes the clicked one and the
        transition ends. It exists only after an accepted click. */
    method CompleteTransition()
      requires Valid() && pending.Some?
      modifies this
      ensures Valid()
      ensures language == old(pending).value && language != old(language)
      ensures !isTransitioning && pending == None
    {
      language := pending.value;
      isTransitioning := false;
      pending := None;
    }
  }

  /** `getIndicatorPosition`, in hundredths of a percent of the track width. */
  function IndicatorPosition(language: string): (hundredths: int)
    ensures 0 <= hundredths <= 6666
  {
    match language
    case "en" => 0
    case "ru" => 3333
    case "kk" => 6666
    case _ => 3333
  }

  /** The languages of the three buttons, left to right. */
  const Buttons: seq<string> := ["en", "ru", "kk"]

  /** The indicator sits under the button of the current language, a third of
      the track per button. */
  lemma IndicatorUnderButton()
    ensures forall i :: 0 <= i < |Buttons| ==> IndicatorPosition(Buttons[i]) == i * 3333
  {
  }

  /** A language without a button (a detected code such as "en-US") shares the
      indicator with Russian. */
  lemma UnknownLanguageIndicator(other: string)
    requires other !in Buttons
    ensures IndicatorPosition(other) == IndicatorPosition("ru")
  {
  }

  datatype TextStyle = Highlighted | Dimmed

  /** `getTextColor(lang)`: the current language's button is highlighted. */
  function TextColor(current: string, lang: string): TextStyle {
    if current == lang then Highlighted else Dimmed
  }

  /** Of the three rendered buttons exactly one is highlighted when the current
      language has a button, and none is otherwise. */
  lemma OneButtonHighlighted(current: string)
    ensures |set b | b in Buttons && TextColor(current, b) == Highlighted| == if current in Buttons then 1 else 0
  {
    var lit := set b | b in Buttons && TextColor(current, b) == Highlighted;
    if current in Buttons {
      assert lit == {current};
    } else {
      assert lit == {};
    }
  }
}
