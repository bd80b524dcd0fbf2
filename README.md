# ROS Compass site: state logic, modelled in Dafny

The ROS Compass website is a single-page marketing site for a robotics
consultancy. Almost all of it is static markup and animation. This project
models the five parts that hold state or logic, each in its own module:

- `ScrollSpy` (`scroll_spy.dfy`, from `src/App.jsx`). On every scroll event
  the page shell probes the point `scrollY + 100`. It walks the sections
  hero, services, work, about and contact in that order. The first mounted
  section whose half-open box `[offsetTop, offsetTop + offsetHeight)` holds
  the probe becomes the active section. If none does, the active section is
  kept. `App.HandleScroll` is the handler's loop with early exit. It is
  proved equal to `NextActive`, a function built on the reference search
  `FirstMatch`.
- `Accordion` (`accordion.dfy`, from `src/components/ProjectAccordion.jsx`).
  One project card is rendered as a pure function of the project record and
  `isOpen`. The header previews `techStack.slice(0, 3)` and shows a
  "+k more" badge. The chevron turns to 180 degrees when the card is open.
  The details body, with the full stack and the GitHub and demo links when
  their URLs are truthy, appears only while the card is open.
- `Projects` (`projects.dfy`, from `src/components/Projects.jsx`). This is
  the fixed list of three projects and the class `ProjectList`. Its only
  field is `openIndex`, the position of the open card or null. Its toggle
  closes the open card or opens another one, so at most one card is
  expanded.
- `ContactForm` (`contact_form.dfy`, from
  `src/components/ContactForm.jsx`). The class `Form` holds the three field
  values, the submission status and the focused field. `Apply` and `Run`
  give the same transitions as a function on values. Submission becomes
  three events: submit (status loading), completion (status success, fields
  cleared) and reset (status idle). `Enabled` says when each event can
  happen, so the status goes only round idle, loading, success, idle.
- `Navigation` (`navigation.dfy`, from `src/components/Navbar.jsx`). The
  class `Navbar` holds the scrolled flag (`scrollY > 50`) and the mobile menu
  flag. Every navigation action closes the menu. A nav item is highlighted
  when its id is the active section.

`Wrappers` (`wrappers.dfy`) holds the `Option` type that stands for
JavaScript's `null`-or-value.

Browser inputs become parameters. Element geometry is a map from each
mounted section id to its integer `offsetTop` and `offsetHeight`; an id that
is missing from the map is an element `document.getElementById` does not
find. `scrollY` is an integer. The two timers of the form's submit handler
become the completion and reset events.

The code does not have the following, so neither does this model:

- The code has no scroll-after-toggle reconciler, no 100 ms or 450 ms
  delays, no remembered previous open item, no close-all operation and no
  outside-click dismissal.
- The scroll handler is not run when the page mounts. The active section
  stays "hero" until the first scroll event.
- Service cards have no open or closed state.

## Model

| member | source | states |
|---|---|---|
| `ScrollSpy.FirstMatch` | src/App.jsx:18-27 | The reference search returns the position of a section whose mounted box holds the probe, and no earlier section holds it. It returns None only when no section in the list holds it. |
| `ScrollSpy.App.constructor` | src/App.jsx:11 | The active section starts as "hero", one of the listed sections. |
| `ScrollSpy.App.HandleScroll` | src/App.jsx:14-28 | The early-exit loop over hero, services, work, about and contact, probing at `scrollY + 100`, leaves the active section equal to `NextActive`. That is the first matching section, or the old one when nothing matches. The state stays one of the five ids. |
| `ScrollSpy.NextActiveSelectsMatch` | src/App.jsx:16-24 | A new active section is always one whose box `[offsetTop, offsetTop + offsetHeight)` holds `scrollY + 100`. |
| `ScrollSpy.FirstMatchBecomesActive` | src/App.jsx:18-25 | When some mounted section holds the probe, the first such section in list order becomes active. |
| `ScrollSpy.NoMatchKeepsActive` | src/App.jsx:18-27 | When no mounted section holds the probe, the active section is unchanged. |
| `ScrollSpy.EarlierMatchWins` | src/App.jsx:18-25 | If a section matches, no later section in the list can become active, whatever else matches. |
| `ScrollSpy.UnmountedNotSelected` | src/App.jsx:19-20 | A section whose element is missing is skipped: it is never chosen by the event. |
| `ScrollSpy.EmptyLayoutKeepsActive` | src/App.jsx:18-27 | With no section mounted, the handler keeps the active section and never fails. |
| `ScrollSpy.NextActiveStaysListed` | src/App.jsx:11-15 | Starting from a listed id, the active section is always one of the five listed ids, never empty. |
| `ScrollSpy.NextActiveIdempotent` | src/App.jsx:18-27 | Running the handler twice on the same position and geometry gives the same state as running it once. |
| `ScrollSpy.SectionsDistinct` | src/App.jsx:15 | The five section ids are pairwise distinct. |
| `Accordion.Slice` | src/components/ProjectAccordion.jsx:33 | `Array.prototype.slice(start, end)` has length `to - from` (0 when `to <= from`) for the resolved positions, and element `i` of the result is element `from + i` of the input. A negative position counts from the end, and both positions are clamped to `[0, n]`. |
| `Accordion.PreviewIsPrefix` | src/components/ProjectAccordion.jsx:33 | The preview is the prefix of the tech stack of length min(3, n), in order. |
| `Accordion.BadgeAccountsForRest` | src/components/ProjectAccordion.jsx:33-44 | The "+k more" badge appears iff n > 3, with k = n - 3. Preview count plus badge count is n, and the preview followed by the rest is the whole stack. |
| `Accordion.Render` | src/components/ProjectAccordion.jsx:51-61 | The body is rendered iff `isOpen`. The chevron is 180 when open and 0 when closed. The body's stack is the full stack in order. Each link is rendered iff its URL is truthy (not null, not empty). |
| `Accordion.HeaderIndependentOfOpen` | src/components/ProjectAccordion.jsx:14-57 | The header (title, summary, preview, badge) is the same open or closed; only the chevron angle differs. |
| `Accordion.LinksPointAtUrls` | src/components/ProjectAccordion.jsx:120-143 | A rendered GitHub or demo link points at the record's URL. |
| `Projects.Toggled` | src/components/Projects.jsx:47-49 | Toggling the open index leaves nothing open. Toggling any other index, or toggling when nothing is open, opens exactly that index. |
| `Projects.ToggleTwiceRestores` | src/components/Projects.jsx:48 | From all-closed, or from that index open, toggling the same index twice restores the start. |
| `Projects.ToggleKeepsInRange` | src/components/Projects.jsx:83-88 | Toggles come from rendered positions, so `openIndex` stays null or a valid position. |
| `Projects.ExpandedCount` | src/components/Projects.jsx:87 | If each card is expanded exactly when its position equals `openIndex`, the number of expanded cards is 1 when `openIndex` is a valid position and 0 otherwise. |
| `Projects.AtMostOneExpanded` | src/components/Projects.jsx:83-91 | At most one card of the section is expanded, and it is the one at `openIndex`. |
| `Projects.RenderedExpandedCount` | src/components/Projects.jsx:83-88 | For the section's state (`openIndex` null or a valid position), the rendered list has exactly one expanded card while a project is open and none otherwise. |
| `Projects.IsOpenUnique` | src/components/Projects.jsx:87 | Two positions that both report `isOpen` are the same position. |
| `Projects.CatalogueCards` | src/components/Projects.jsx:5-42 | Each listed project has six technologies, so its header previews the first three and shows "+3 more". Its GitHub link ("#") is shown and its demo link (null) is not. |
| `Projects.ProjectList.constructor` | src/components/Projects.jsx:45 | Initially no project is open. |
| `Projects.ProjectList.HandleToggle` | src/components/Projects.jsx:47-49 | The new `openIndex` is `Toggled(old openIndex, index)`, and it stays null or a valid position. |
| `ContactForm.Update` | src/components/ContactForm.jsx:14-17 | A change sets the named field to the new value and leaves the other two fields unchanged. |
| `ContactForm.ChangeTouchesOnlyField` | src/components/ContactForm.jsx:14-17 | A change event edits only the named field; status and focus are untouched. |
| `ContactForm.SubmissionCycle` | src/components/ContactForm.jsx:19-33 | Submit sets loading. Completion sets success and clears all three fields. Reset returns to idle, ending with the fields empty and focus unchanged. |
| `ContactForm.RunNeverErrors` | src/components/ContactForm.jsx:11-32 | No sequence of events sets the error status named in the component's status comment (`// idle, loading, success, error`). |
| `ContactForm.ReachableButton` | src/components/ContactForm.jsx:134-164 | In every reachable state the submit button has a caption, and it is disabled (loading or success) exactly when the form is not idle. |
| `ContactForm.EnabledTraceFollowsCycle` | src/components/ContactForm.jsx:19-33 | The events that can happen are these: a submit through the enabled button (not loading, not success) with every required field filled; completion only while loading; reset only after success; edits and focus at any time. Along every such trace from a non-error state, each status change is idle to loading, loading to success or success to idle, and the status is never error. |
| `ContactForm.InitialCycleIsEnabled` | src/components/ContactForm.jsx:6-33 | From the initial form with every field filled, submit, completion and reset is a trace the page can produce. |
| `ContactForm.FocusHighlightsOne` | src/components/ContactForm.jsx:62-122 | Focus makes `focused` that field, so exactly that input is highlighted; blur clears it, so none is. |
| `ContactForm.Form.constructor` | src/components/ContactForm.jsx:6-12 | Fields start empty, status starts idle, and nothing is focused. |
| `ContactForm.Form.HandleChange` | src/components/ContactForm.jsx:14-17 | The new state is the old state after the change event; status never becomes error. |
| `ContactForm.Form.HandleSubmit` | src/components/ContactForm.jsx:19-21 | Runs only when the button is enabled and every required field is filled. The status becomes loading and nothing else changes. |
| `ContactForm.Form.CompleteSubmission` | src/components/ContactForm.jsx:28-29 | Runs only while loading. The status becomes success and all three fields become empty. |
| `ContactForm.Form.ResetStatus` | src/components/ContactForm.jsx:32 | Runs only after success. The status returns to idle; the fields and focus are unchanged. |
| `ContactForm.Form.HandleFocus` | src/components/ContactForm.jsx:70 | `focused` becomes the field's name. |
| `ContactForm.Form.HandleBlur` | src/components/ContactForm.jsx:71 | `focused` becomes null. |
| `Navigation.NavIdsAreSections` | src/components/Navbar.jsx:5-11 | The nav items' ids are the scroll-spy's sections, in the same order. |
| `Navigation.AtMostOneHighlighted` | src/components/Navbar.jsx:65 | The ids are distinct, so two highlighted items are the same item. |
| `Navigation.ExactlyOneHighlighted` | src/components/Navbar.jsx:65-73 | When the active section is one of the five ids, which the scroll-spy guarantees, exactly one item is highlighted. |
| `Navigation.MobileMenuItems` | src/components/Navbar.jsx:109-124 | Mobile menu items are rendered iff the menu is open, and then they are the nav items in order. |
| `Navigation.Navbar.constructor` | src/components/Navbar.jsx:14-15 | Initially not scrolled and the mobile menu is closed. |
| `Navigation.Navbar.HandleScroll` | src/components/Navbar.jsx:18-20 | `isScrolled` becomes true iff `scrollY > 50`; the menu is unchanged. |
| `Navigation.Navbar.ToggleMobileMenu` | src/components/Navbar.jsx:100 | The menu button flips `isMobileMenuOpen`. |
| `Navigation.PressMenuTwice` | src/components/Navbar.jsx:100 | Two presses of the menu button restore the menu state. |
| `Navigation.Navbar.ScrollToSection` | src/components/Navbar.jsx:25-31 | A scroll is requested iff the target element exists, and the mobile menu is left closed either way. |

## Left out

- Scroll effects: `scrollIntoView` is a browser call, so the model does not perform the scroll. `ScrollToSection` only reports whether it would be requested.
- Event-listener registration and removal in `src/App.jsx` and `src/components/Navbar.jsx`: this is runtime plumbing.
- Real time: the 1500 ms and 3000 ms timers of the submit handler and its `await` are left out. They become the completion and reset events. `Enabled` orders them: completion only while loading, reset only after success.
- The `console.log` of the submitted data is I/O.
- Animation parameters (framer-motion durations, scales, opacities, springs) are left out, as are Tailwind class strings, including the form's `inputClasses`. Only the focus highlight predicate behind `inputClasses` is modelled.
- Browser form validation: only the `required` check is modelled, as `AllFilled` in `Enabled`. The `type="email"` format check on the email input is left out. So is any other constraint validation the browser applies before `onSubmit`.
- Fractional `scrollY` is modelled as an integer.
- The other components (Hero, Services, ServiceCard, About, Contact, Footer) are static markup, copy and animation variants with no state. They are not part of this model.
