/**
 * Navbar of the client: the privacy-mode switch, the indicators that follow
 * it, and the mobile menu button.
 */
module Navbar {

  const SECURE := "secure"
  const CLOUD := "cloud"

  /** `handleToggle`: "secure" becomes "cloud"; every other value becomes "secure". */
  function Toggle(mode: string): (next: string)
    ensures next in {SECURE, CLOUD}
    ensures next == CLOUD <==> mode == SECURE
  {
    if mode == SECURE then CLOUD else SECURE
  }

  /** `isSecureMode`: only the exact string "secure" is secure mode, and it is exactly the
      mode the switch leaves for "cloud". */
  predicate IsSecureMode(mode: string)
    ensures IsSecureMode(mode) <==> Toggle(mode) == CLOUD
    ensures IsSecureMode(mode) ==> Toggle(Toggle(mode)) == mode
  {
    mode == SECURE
  }

  /** What the desktop and mobile switches show for a mode. */
  datatype ToggleView = ToggleView(
    ariaChecked: bool,
    badge: string,
    mobileLabel: string,
    knobClass: string)

  function View(mode: string): (v: ToggleView)
    ensures v.ariaChecked <==> mode == SECURE
    ensures v.badge == "\U{1F512} HIPAA Compliant" <==> mode == SECURE
    ensures v.badge == "\U{2601}\U{FE0F} GPT-4 Enabled" <==> mode != SECURE
    ensures v.mobileLabel == "Local Secure Mode" <==> mode == SECURE
  {
    var secure := IsSecureMode(mode);
    ToggleView(
      secure,
      if secure then "\U{1F512} HIPAA Compliant" else "\U{2601}\U{FE0F} GPT-4 Enabled",
      if secure then "Local Secure Mode" else "Cloud Mode (GPT-4)",
      if secure then "translate-x-1" else "translate-x-7")
  }

  /** Toggling a valid mode twice gives it back. */
  lemma ToggleTwice(mode: string)
    requires mode in {SECURE, CLOUD}
    ensures Toggle(Toggle(mode)) == mode
  {
  }

  /** Toggling a value that is neither mode twice lands on "cloud", not on the value. */
  lemma ToggleTwiceFromUnknown(mode: string)
    requires mode !in {SECURE, CLOUD}
    ensures Toggle(mode) == SECURE && Toggle(Toggle(mode)) == CLOUD
  {
  }

  /** Every toggle flips what the switch shows. */
  lemma ToggleFlipsView(mode: string)
    ensures View(Toggle(mode)).ariaChecked == !View(mode).ariaChecked
    ensures View(Toggle(mode)).badge != View(mode).badge
  {
  }

  /** The mobile menu button: `setIsMobileMenuOpen(!isMobileMenuOpen)`. */
  function FlipMenu(open: bool): (next: bool)
    ensures next != open
  {
    !open
  }

  /** Two presses of the mobile menu button restore the menu. */
  lemma FlipMenuTwice(open: bool)
    ensures FlipMenu(FlipMenu(open)) == open
  {
  }
}
