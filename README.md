# Portfolio site: verified model of its UI state and helpers

This project models, in Dafny, the parts of a single-page portfolio website
that carry logic rather than markup:

- **Skills matrix** (`SkillsMatrix.dfy`): the mapping from a proficiency
  score to a level badge and a bar colour by the thresholds 90/80/70/50, the
  four hard-coded skill categories, the rows a category tab shows, and the
  default tab.
- **Testimonial carousel** (`TestimonialCarousel.dfy`): a `Carousel` object
  with the fields `currentIndex` and `direction`, changed by next, previous
  and an indicator jump; the pure enter/exit slide offsets (±1000 px).
- **Experience timeline** (`ExperienceTimeline.dfy`): a `Timeline` object
  whose list of positions is replaced on each click by a copy with one
  entry's optional `expanded` flag negated; the left/right layout and the
  details shown only when expanded.
- **Header** (`Header.dfy`): a `Header` object with the mobile-menu flag,
  the scrolled flag, the theme value and a log of the page callbacks it has
  invoked; home mode, the controls per mode, and navigation that closes the
  menu only when a callback exists.
- **Case-study page** (`CaseStudy.dfy`): the linear search of the case-study
  records for the route's id and the not-found branch.

`Wrappers.dfy` holds the `Option` type used for optional record fields, optional
callbacks and searches that may fail.

Two behaviours of the code are easy to misread and are modelled as written:
the theme switch sends every value other than `"dark"` (including an
unexpected `"system"`) to `"dark"`, so two presses restore only `"light"` and
`"dark"` (`Header.ToggleThemeTwice`); and an indicator click on the card
already shown sets the direction to backward (-1), not to "no move".

## Model

| member | source | states |
|---|---|---|
| SkillsMatrix.SkillLevel | src/components/SkillsMatrix.tsx:74-80 | "Expert" iff p ≥ 90, "Advanced" iff 80 ≤ p < 90, "Proficient" iff 70 ≤ p < 80, "Intermediate" iff 50 ≤ p < 70, "Beginner" iff p < 50 |
| SkillsMatrix.SkillColor | src/components/SkillsMatrix.tsx:82-88 | the five bar colours hold on exactly the same five intervals as the levels |
| SkillsMatrix.PairingIsBijection | src/components/SkillsMatrix.tsx:74-88 | the label-to-colour pairing and its inverse undo each other on the five labels and five colours |
| SkillsMatrix.LevelAndColorAgree | src/components/SkillsMatrix.tsx:74-88 | for every score, the colour is the one paired with the level and the level the one paired with the colour |
| SkillsMatrix.LevelRank | src/components/SkillsMatrix.tsx:74-80 | ranks the five levels 0..4, Beginner lowest and Expert highest |
| SkillsMatrix.LevelMonotone | src/components/SkillsMatrix.tsx:74-80 | p ≤ q implies the level of p ranks no higher than the level of q |
| SkillsMatrix.SkillRows | src/components/SkillsMatrix.tsx:106-130 | one row per skill in order; the progress value is the proficiency unchanged, the badge is its level, and the bar colour is the colour paired with the badge |
| SkillsMatrix.DefaultTabIsACategory | src/components/SkillsMatrix.tsx:21-29 | the default tab "marketing" is the id of the first category and of no other |
| SkillsMatrix.CategoryIdsDistinct | src/components/SkillsMatrix.tsx:27-72 | the four category ids are pairwise distinct |
| SkillsMatrix.ListedSkillsAreStrong | src/components/SkillsMatrix.tsx:27-80 | every listed proficiency is between 75 and 95, so every badge is Expert, Advanced or Proficient |
| TestimonialCarousel.NextIndex | src/components/TestimonialCarousel.tsx:47-52 | next stays in [0, n) and is one step forward modulo n (last goes to 0) |
| TestimonialCarousel.PrevIndex | src/components/TestimonialCarousel.tsx:54-59 | previous stays in [0, n) and is one step back modulo n (0 goes to n − 1) |
| TestimonialCarousel.PrevNextInverse | src/components/TestimonialCarousel.tsx:47-59 | previous undoes next and next undoes previous |
| TestimonialCarousel.NextTimesIsAddition | src/components/TestimonialCarousel.tsx:47-68 | k presses of next (or k timer ticks) from i reach (i + k) mod n |
| TestimonialCarousel.FullCycle | src/components/TestimonialCarousel.tsx:47-52 | n presses of next return to the starting card |
| TestimonialCarousel.EnterOffset | src/components/TestimonialCarousel.tsx:70-75 | the enter offset is ±1000 and is +1000 iff direction > 0 |
| TestimonialCarousel.ExitOffset | src/components/TestimonialCarousel.tsx:79-82 | the exit offset is ±1000 and is +1000 iff direction < 0 |
| TestimonialCarousel.OffsetsOpposite | src/components/TestimonialCarousel.tsx:70-83 | for direction ±1 enter and exit offsets are opposite; for the initial 0 both are −1000 |
| TestimonialCarousel.Carousel.constructor | src/components/TestimonialCarousel.tsx:17-45 | starts on card 0 with direction 0 over the three testimonials, satisfying the index invariant |
| TestimonialCarousel.Carousel.Current | src/components/TestimonialCarousel.tsx:103-118 | under the invariant the card shown is an element of the list (no out-of-bounds index) |
| TestimonialCarousel.Carousel.Next | src/components/TestimonialCarousel.tsx:47-52 | keeps 0 ≤ currentIndex < length, sets the index to NextIndex of the old one and the direction to 1 |
| TestimonialCarousel.Carousel.Previous | src/components/TestimonialCarousel.tsx:54-59 | keeps the invariant, sets the index to PrevIndex of the old one and the direction to −1 |
| TestimonialCarousel.Carousel.JumpTo | src/components/TestimonialCarousel.tsx:143-146 | keeps the invariant, sets the index to the target, direction 1 iff target > old index and −1 otherwise (also when equal) |
| TestimonialCarousel.NextThenPrevious | src/components/TestimonialCarousel.tsx:47-59 | on the object, next followed by previous restores the card shown |
| ExperienceTimeline.ToggleExpand | src/components/ExperienceTimeline.tsx:70-74 | same length and order, every field but `expanded` kept, matching entries get the negation of their flag (absent read as false), other entries unchanged |
| ExperienceTimeline.ToggleUnknownId | src/components/ExperienceTimeline.tsx:71-73 | toggling an id that names no entry leaves the list equal to itself |
| ExperienceTimeline.ToggleTwice | src/components/ExperienceTimeline.tsx:70-74 | two toggles of one id restore every entry's expanded truth value and keep all other fields |
| ExperienceTimeline.ToggleCommutes | src/components/ExperienceTimeline.tsx:70-74 | toggles of two different ids commute, so toggling one entry never affects another |
| ExperienceTimeline.InitiallyCollapsed | src/components/ExperienceTimeline.tsx:20-62 | three initial entries with ids 1, 2, 3, all without an expanded flag and so collapsed |
| ExperienceTimeline.FirstToggleExpands | src/components/ExperienceTimeline.tsx:72 | a first toggle of an initial entry expands it |
| ExperienceTimeline.SideOf | src/components/ExperienceTimeline.tsx:81 | an entry is laid out on the left iff its index is even |
| ExperienceTimeline.RenderEntry | src/components/ExperienceTimeline.tsx:90-133 | the chevron points up and the achievements and skills are shown exactly when the entry is expanded |
| ExperienceTimeline.Render | src/components/ExperienceTimeline.tsx:80-189 | one view per entry in order, the first on the left and consecutive entries on alternating sides |
| ExperienceTimeline.Timeline.constructor | src/components/ExperienceTimeline.tsx:20-63 | the state starts as the three literal entries |
| ExperienceTimeline.Timeline.Toggle | src/components/ExperienceTimeline.tsx:70-74 | the new list is ToggleExpand of the old one |
| Header.ModeOf | src/components/Header.tsx:23 | home mode holds iff the pathname is exactly "/" |
| Header.Controls | src/components/Header.tsx:66-121 | in home mode every section button is shown; elsewhere only the contact button and a home link; the theme switch always |
| Header.HandlerFor | src/components/Header.tsx:69-108 | a button has a callback iff the page passed callbacks and one for that item |
| Header.ToggledTheme | src/components/Header.tsx:49-51 | the result is "light" or "dark", and "light" iff the old theme was "dark" |
| Header.ToggleThemeTwice | src/components/Header.tsx:49-51 | two presses restore the theme iff it was "light" or "dark" |
| Header.Header.constructor | src/components/Header.tsx:19-20 | the menu starts closed and the header unscrolled |
| Header.Header.MobilePanel | src/components/Header.tsx:137-202 | the mobile panel is shown iff the menu is open, with the controls of the current mode |
| Header.Header.OnScroll | src/components/Header.tsx:26-28 | the header is scrolled iff scrollY > 10, strictly; nothing else changes |
| Header.Header.ToggleMenu | src/components/Header.tsx:34-36 | negates the menu flag; nothing else changes |
| Header.Header.CloseMenu | src/components/Header.tsx:38-40 | leaves the menu closed; nothing else changes |
| Header.Header.HandleNavigation | src/components/Header.tsx:42-47 | with a callback: invokes it once and leaves the menu closed; without: changes nothing, an open menu stays open |
| Header.Header.PressSection | src/components/Header.tsx:69-108 | a section or contact button invokes the page's callback for it, if any, and closes the menu exactly then |
| Header.Header.PressMobileHomeLink | src/components/Header.tsx:174-180 | the mobile home link closes the menu |
| Header.Header.ToggleTheme | src/components/Header.tsx:49-51 | the theme becomes ToggledTheme of the old one; nothing else changes |
| Header.ToggleMenuTwice | src/components/Header.tsx:34-36 | two presses of the menu button restore the menu flag |
| Header.ContactWithoutCallbacks | src/components/Header.tsx:107-108 | on a page that passes no callbacks the contact button changes nothing |
| CaseStudy.FindIndex | src/pages/CaseStudy.tsx:57 | the position returned matches and no earlier record does; none is returned only when no record matches |
| CaseStudy.Find | src/pages/CaseStudy.tsx:57 | a record is returned iff some record's id equals the parameter; it is the first such record and has the requested id |
| CaseStudy.Page | src/pages/CaseStudy.tsx:15-70 | not found iff no record matches; otherwise the detail of the matching record, on the "overview" tab |
| CaseStudy.KnownStudy | src/pages/CaseStudy.tsx:17-57 | id "1" shows "E-commerce Conversion Optimization" with its three metrics |
| CaseStudy.UnknownStudy | src/pages/CaseStudy.tsx:17-70 | any other parameter ("2", "01", or none) shows the not-found view |

## Left out

- The carousel's 8000 ms interval and its cleanup: timing is not modelled; a tick is a call of `Carousel.Next`, and `NextTimesIsAddition` covers any number of ticks.
- The scroll listener's registration and removal: only its handler (`Header.OnScroll`) is modelled, with `scrollY` as a parameter.
- The theme store and its persistence live outside the header; the model keeps its current value in the header's `theme` field.
- The scroll callbacks supplied by the home page scroll the window, which is outside the model; invoking one is recorded in the header's `invoked` log.
- Route matching, the home link's navigation and every other route change belong to the router, which is not part of this model.
- The case-study records' long prose (challenge, approach, results) and the floating-point chart series are not modelled; they are display-only text and numbers no logic reads. Only the one record present in the source is modelled.
- The active tab of the skills matrix and of the case-study page is handed to a tabs widget; the model states only its initial value.
- Animations, visibility triggers, icons and CSS classes other than the bar colours are not modelled.
- Home, Contact, Footer, MetricCard, CaseStudyCard and ContactForm are static markup, DOM scrolling or a form driven by foreign validation and timers; they are not part of this model.
