// The access guards of the page: which modal dialog `openModal` actually
// shows and what `showSection` does, given whether a user is logged in.
// Identifiers are the element ids the page uses.
module Navigation {

  const LoginModal := "loginModal"
  const BookingModal := "bookingModal"
  const VideoCallModal := "videoCallModal"
  const AppointmentsSection := "appointments"
  const DashboardSection := "dashboard"

  /** Modals that are only for logged-in users. */
  predicate ModalNeedsLogin(modalId: string) {
    modalId == BookingModal || modalId == VideoCallModal
  }

  /** Sections that are only for logged-in users. */
  predicate SectionNeedsLogin(sectionId: string) {
    sectionId == AppointmentsSection || sectionId == DashboardSection
  }

  /**
   * `openModal(modalId)`: the modal that becomes active. A refused request
   * opens the login modal instead, through a second call to `openModal`.
   */
  function OpenModal(loggedIn: bool, modalId: string): (shown: string)
    ensures !loggedIn && ModalNeedsLogin(modalId) ==> shown == LoginModal
    ensures loggedIn || !ModalNeedsLogin(modalId) ==> shown == modalId
    ensures ModalNeedsLogin(shown) ==> loggedIn
    decreases if ModalNeedsLogin(modalId) then 1 else 0
  {
    if !loggedIn && ModalNeedsLogin(modalId) then OpenModal(loggedIn, LoginModal)
    else modalId
  }

  /** What the user sees after `showSection(sectionId)`. */
  datatype View = SectionView(section: string) | ModalView(modal: string)

  /**
   * `showSection(sectionId)`: switches to the section, or, for a section
   * that needs a login while nobody is logged in, opens the login modal and
   * leaves the sections as they were.
   */
  function ShowSection(loggedIn: bool, sectionId: string): (v: View)
    ensures v.SectionView? <==> loggedIn || !SectionNeedsLogin(sectionId)
    ensures v.SectionView? ==> v.section == sectionId
    ensures v.ModalView? ==> v.modal == LoginModal
  {
    if !loggedIn && SectionNeedsLogin(sectionId) then ModalView(OpenModal(loggedIn, LoginModal))
    else SectionView(sectionId)
  }

  /** While nobody is logged in, the four guarded targets are exactly the refused ones. */
  lemma LoggedOutRefusals(modalId: string, sectionId: string)
    ensures OpenModal(false, modalId) != modalId <==>
            modalId == BookingModal || modalId == VideoCallModal
    ensures ShowSection(false, sectionId).ModalView? <==>
            sectionId == AppointmentsSection || sectionId == DashboardSection
  {
  }

  /** A logged-in user is never redirected. */
  lemma LoggedInNeverRedirected(modalId: string, sectionId: string)
    ensures OpenModal(true, modalId) == modalId
    ensures ShowSection(true, sectionId) == SectionView(sectionId)
  {
  }
}
