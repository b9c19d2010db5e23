/** The accordion's CSS class names. */
module AccordionStyles {
  const ACCORDION := "pf-v5-c-accordion"
  const ACCORDION_EXPANDABLE_CONTENT := "pf-v5-c-accordion__expandable-content"
  const ACCORDION_EXPANDABLE_CONTENT_BODY := "pf-v5-c-accordion__expandable-content-body"
  const ACCORDION_TOGGLE := "pf-v5-c-accordion__toggle"
  const ACCORDION_TOGGLE_ICON := "pf-v5-c-accordion__toggle-icon"
  const ACCORDION_TOGGLE_TEXT := "pf-v5-c-accordion__toggle-text"
  const THEME_DARK := "pf-v5-theme-dark"

  const MODIFIERS_DISPLAY_LG := "pf-m-display-lg"
  const MODIFIERS_BORDERED := "pf-m-bordered"
  const MODIFIERS_EXPANDED := "pf-m-expanded"
  const MODIFIERS_FIXED := "pf-m-fixed"
}
