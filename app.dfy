/**
 * The top-level portal: which view is current, which form is selected, the
 * notification, the handlers that step them, and which screen the state
 * selects. The forms query's loading flag and error are inputs. The
 * 5-second notification timer is an explicit event.
 */
module App {
  import opened Wrappers
  import opened Types
  import opened DynamicForm
  import opened FormSession

  datatype View = Home | Forms | Applications

  datatype NoticeKind = Success | Failure

  datatype Notification = Notification(kind: NoticeKind, message: string)

  const SubmittedMessage: string := "Application submitted successfully!"
  const SubmitFailedMessage: string := "Failed to submit application. Please try again."

  /** What is on screen. A page has the navigation bar (with or without the
      back button), the notification, and a main area holding either the
      loading spinner or the view's content. */
  datatype Screen =
    | ConnectionError
    | Page(backButton: bool, notice: Option<Notification>, spinner: bool,
           formSelector: bool, dynamicForm: Option<FormStructure>, applicationsList: bool)

  /** The rendering rule: the error screen exactly when the fetch failed;
      otherwise a page whose main area holds at most one thing, the spinner
      exactly while loading. */
  function Render(view: View, selectedForm: Option<FormStructure>, notification: Option<Notification>,
                  isLoading: bool, hasError: bool): (r: Screen)
    ensures r.ConnectionError? <==> hasError
    ensures r.Page? ==> (r.spinner <==> isLoading)
    ensures r.Page? ==> ContentCount(r) + (if r.spinner then 1 else 0) <= 1
  {
    if hasError then ConnectionError
    else if isLoading then Page(view != Home, notification, true, false, None, false)
    else Page(view != Home, notification, false, view == Home,
              if view == Forms then selectedForm else None, view == Applications)
  }

  /** A fetch error shows the error screen whatever the view; otherwise the
      back button shows iff the view is not home, and the notification shows when set. */
  lemma ErrorScreenAndChrome(view: View, selectedForm: Option<FormStructure>, notification: Option<Notification>,
                             isLoading: bool, hasError: bool)
    ensures hasError <==> Render(view, selectedForm, notification, isLoading, hasError).ConnectionError?
    ensures !hasError ==> Render(view, selectedForm, notification, isLoading, hasError).backButton == (view != Home)
    ensures !hasError ==> Render(view, selectedForm, notification, isLoading, hasError).notice == notification
  {
  }

  /** While loading only the spinner fills the main area. */
  lemma NothingWhileLoading(view: View, selectedForm: Option<FormStructure>, notification: Option<Notification>)
    ensures var s := Render(view, selectedForm, notification, true, false);
            s.spinner && !s.formSelector && s.dynamicForm.None? && !s.applicationsList
  {
  }

  /** Once loaded, the selector shows iff the view is home, the list iff it is
      applications, and the form iff the view is forms and a form is selected. */
  lemma ContentFollowsView(view: View, selectedForm: Option<FormStructure>, notification: Option<Notification>)
    ensures var s := Render(view, selectedForm, notification, false, false);
            && !s.spinner
            && (s.formSelector <==> view == Home)
            && (s.applicationsList <==> view == Applications)
            && (s.dynamicForm.Some? <==> view == Forms && selectedForm.Some?)
            && (s.dynamicForm.Some? ==> s.dynamicForm == selectedForm)
  {
  }

  /** The number of content components a page shows. */
  function ContentCount(s: Screen): nat
    requires s.Page?
  {
    (if s.formSelector then 1 else 0) + (if s.dynamicForm.Some? then 1 else 0) + (if s.applicationsList then 1 else 0)
  }

  class Portal {
    var currentView: View
    var selectedForm: Option<FormStructure>
    var notification: Option<Notification>

    /** Every transition into the forms view selects a form. */
    ghost predicate Valid()
      reads this
    {
      currentView == Forms ==> selectedForm.Some?
    }

    constructor ()
      ensures Valid()
      ensures currentView == Home && selectedForm == None && notification == None
    {
      currentView, selectedForm, notification := Home, None, None;
    }

    function Screen(isLoading: bool, hasError: bool): Screen
      reads this
    {
      Render(currentView, selectedForm, notification, isLoading, hasError)
    }

    /** In a consistent state, a loaded page shows exactly one content component. */
    lemma ExactlyOneContent()
      requires Valid()
      ensures Screen(false, false).Page? && ContentCount(Screen(false, false)) == 1
    {
    }

    method HandleFormSelect(form: FormStructure)
      modifies this
      ensures Valid()
      ensures selectedForm == Some(form) && currentView == Forms && notification == old(notification)
    {
      selectedForm := Some(form);
      currentView := Forms;
    }

    method HandleBackToHome()
      modifies this
      ensures Valid()
      ensures currentView == Home && selectedForm == None && notification == old(notification)
    {
      currentView := Home;
      selectedForm := None;
    }

    /** "New Application": only the view changes; the selected form is kept. */
    method NavNewApplication()
      requires Valid()
      modifies this
      ensures Valid()
      ensures currentView == Home && selectedForm == old(selectedForm) && notification == old(notification)
    {
      currentView := Home;
    }

    /** "My Applications": only the view changes. */
    method NavMyApplications()
      requires Valid()
      modifies this
      ensures Valid()
      ensures currentView == Applications && selectedForm == old(selectedForm) && notification == old(notification)
    {
      currentView := Applications;
    }

    /** The notification timer runs out. */
    method NotificationTimerFired()
      requires Valid()
      modifies this
      ensures Valid()
      ensures notification == None && currentView == old(currentView) && selectedForm == old(selectedForm)
    {
      notification := None;
    }

    /** `handleFormSubmit`: submit the selected form's data. Reading the id of
        a missing form throws inside the `try`, and every failure is caught, so
        the returned promise always resolves. */
    method HandleFormSubmit(data: FormData, mutationSucceeds: bool) returns (resolved: bool)
      requires Valid()
      modifies this
      ensures Valid()
      ensures resolved
      ensures old(selectedForm).Some? && mutationSucceeds ==>
                && notification == Some(Notification(Success, SubmittedMessage))
                && currentView == Applications && selectedForm == None
      ensures !(old(selectedForm).Some? && mutationSucceeds) ==>
                && notification == Some(Notification(Failure, SubmitFailedMessage))
                && currentView == old(currentView) && selectedForm == old(selectedForm)
    {
      if selectedForm.Some? && mutationSucceeds {
        notification := Some(Notification(Success, SubmittedMessage));
        currentView := Applications;
        selectedForm := None;
      } else {
        notification := Some(Notification(Failure, SubmitFailedMessage));
      }
      resolved := true;
    }
  }

  /** The form's submit button wired to the portal: the form validates, hands
      valid data to the portal, and then removes its draft because the
      portal's handler resolved, even when the submission itself failed. */
  method SubmitFromForm(portal: Portal, session: Session, mutationSucceeds: bool) returns (submitted: Option<FormData>)
    requires portal.Valid() && session.Valid()
    requires portal.currentView == Forms && portal.selectedForm == Some(session.form)
    modifies portal, session, session.store
    ensures portal.Valid() && session.Valid()
    ensures submitted == if FormErrors(session.form.fields, old(session.formData), session.matches) == map[]
                         then Some(old(session.formData)) else None
    ensures submitted.Some? ==>
              session.store.items == old(session.store.items) - {DraftKey(session.form.formId)} && !session.isDraft
    ensures submitted.Some? && !mutationSucceeds ==>
              && portal.notification == Some(Notification(Failure, SubmitFailedMessage))
              && portal.currentView == Forms && portal.selectedForm == Some(session.form)
    ensures submitted.Some? && mutationSucceeds ==>
              portal.currentView == Applications && portal.selectedForm == None
    ensures submitted.None? ==>
              && session.store.items == old(session.store.items)
              && portal.currentView == old(portal.currentView) && portal.selectedForm == old(portal.selectedForm)
              && portal.notification == old(portal.notification)
  {
    var resolved := true;
    if FormErrors(session.form.fields, session.formData, session.matches) == map[] {
      resolved := portal.HandleFormSubmit(session.formData, mutationSucceeds);
    }
    submitted := session.HandleSubmit(resolved);
  }
}
