/** The post-wizard notifier `checkSubmit` of src/pages/Sources/helpers.js.
    After the add-source wizard closes it dispatches at most one
    notification. It dispatches none while the browser is still on the
    wizard's own route. Otherwise it dispatches exactly one: an error when
    the submission failed, else one chosen by the created source's computed
    status (unavailable, timeout, or anything else for success).

    `location.pathname`, the `sourcesNew` route, and the result of
    `computeSourceStatus(state.createdSource)` are inputs. A message is
    described by its title and description message ids and their default
    texts, its variant, whether it carries the `customId`, and which action
    link it shows. */
module Notifier {
  import opened Common
  import opened Entities

  // ---------------------------------------------------------------------
  // Path segments: `path.split('/')`
  // ---------------------------------------------------------------------

  /** `s.split('/')`: the pieces between slashes, empty pieces included. */
  function Split(s: string): (r: seq<string>)
    ensures |r| >= 1
    ensures forall i :: 0 <= i < |r| ==> '/' !in r[i]
  {
    if |s| == 0 then [""]
    else
      var rest := Split(s[1..]);
      if s[0] == '/' then [""] + rest
      else [[s[0]] + rest[0]] + rest[1..]
  }

  /** `parts.join('/')` */
  function Join(parts: seq<string>): string
    requires |parts| >= 1
  {
    if |parts| == 1 then parts[0] else parts[0] + "/" + Join(parts[1..])
  }

  /** Splitting loses nothing: joining the pieces gives the path back. */
  lemma {:induction false} JoinSplit(s: string)
    ensures Join(Split(s)) == s
  {
    if |s| > 0 {
      JoinSplit(s[1..]);
      var rest := Split(s[1..]);
      if s[0] == '/' {
        assert Split(s)[1..] == rest;
        assert s == [s[0]] + s[1..];
      } else {
        if |rest| == 1 {
          assert Split(s) == [[s[0]] + rest[0]];
        } else {
          assert Split(s)[1..] == rest[1..];
          assert Join(rest) == rest[0] + "/" + Join(rest[1..]);
        }
        assert s == [s[0]] + s[1..];
      }
    }
  }

  /** `.pop()` of an array: its last element, or `undefined` when empty. */
  function Last(parts: seq<string>): (r: Option<string>)
    ensures r.None? <==> |parts| == 0
    ensures r.Some? ==> r.value == parts[|parts| - 1]
  {
    if |parts| == 0 then None else Some(parts[|parts| - 1])
  }

  /** `location.pathname.split('/').filter(Boolean).pop()`: the last
      non-empty segment of the page's path. */
  function CurrentSegment(pathname: string): (r: Option<string>)
    ensures r.Some? ==> |r.value| > 0 && '/' !in r.value && r.value in Split(pathname)
    ensures r.None? <==> forall i :: 0 <= i < |Split(pathname)| ==> Split(pathname)[i] == ""
    ensures r.Some? ==> exists i :: 0 <= i < |Split(pathname)| && Split(pathname)[i] == r.value &&
                                    forall j :: i < j < |Split(pathname)| ==> Split(pathname)[j] == ""
  {
    var parts := Split(pathname);
    var nonEmpty := (x: string) => |x| > 0;
    LastNonEmpty(parts, nonEmpty);
    Last(Filter(parts, nonEmpty))
  }

  /** What `filter(Boolean)` followed by `pop()` picks from the pieces. */
  lemma LastNonEmpty(parts: seq<string>, nonEmpty: string -> bool)
    requires forall x :: nonEmpty(x) <==> |x| > 0
    requires forall i :: 0 <= i < |parts| ==> '/' !in parts[i]
    ensures var r := Last(Filter(parts, nonEmpty));
            r.Some? ==> |r.value| > 0 && '/' !in r.value && r.value in parts
    ensures var r := Last(Filter(parts, nonEmpty));
            r.None? <==> forall i :: 0 <= i < |parts| ==> parts[i] == ""
    ensures var r := Last(Filter(parts, nonEmpty));
            r.Some? ==> exists i :: 0 <= i < |parts| && parts[i] == r.value &&
                                    forall j :: i < j < |parts| ==> parts[j] == ""
  {
    var segments := Filter(parts, nonEmpty);
    if |segments| > 0 {
      var i := FilterLastIndex(parts, nonEmpty);
      assert forall j :: i < j < |parts| ==> parts[j] == "";
    } else {
      assert forall i :: 0 <= i < |parts| ==> parts[i] == "" by {
        forall i | 0 <= i < |parts| ensures parts[i] == "" {
          assert parts[i] !in segments;
        }
      }
    }
  }

  /** `routes.sourcesNew.path.split('/').pop()`: what follows the last slash. */
  function RouteSegment(routePath: string): (r: string)
    ensures '/' !in r
    ensures |r| <= |routePath| && routePath[|routePath| - |r|..] == r
    ensures |r| == |routePath| || routePath[|routePath| - |r| - 1] == '/'
  {
    var parts := Split(routePath);
    JoinSplit(routePath);
    LastPartIsSuffix(parts);
    parts[|parts| - 1]
  }

  lemma {:induction false} LastPartIsSuffix(parts: seq<string>)
    requires |parts| >= 1
    ensures var last := parts[|parts| - 1];
            |last| <= |Join(parts)| && Join(parts)[|Join(parts)| - |last|..] == last
    ensures var last := parts[|parts| - 1];
            |last| == |Join(parts)| || Join(parts)[|Join(parts)| - |last| - 1] == '/'
  {
    if |parts| > 1 {
      LastPartIsSuffix(parts[1..]);
      var last := parts[|parts| - 1];
      var tail := Join(parts[1..]);
      assert Join(parts) == (parts[0] + "/") + tail;
      assert Join(parts)[|Join(parts)| - |last|..] == tail[|tail| - |last|..];
      if |last| < |tail| {
        assert Join(parts)[|Join(parts)| - |last| - 1] == tail[|tail| - |last| - 1];
      } else {
        assert Join(parts)[|Join(parts)| - |last| - 1] == (parts[0] + "/")[|parts[0]|];
      }
    }
  }

  // ---------------------------------------------------------------------
  // Inputs and messages
  // ---------------------------------------------------------------------

  /** An application or endpoint entry of the created source; only its
      `availability_status_error` is read. */
  datatype StatusEntry = StatusEntry(availability_status_error: Option<string>)

  /** `state.createdSource`; `applications` and `endpoint` may be missing. */
  datatype CreatedSource = CreatedSource(id: string, name: string, source_type_id: string,
                                         applications: Option<seq<StatusEntry>>,
                                         endpoint: Option<seq<StatusEntry>>)

  /** The wizard state handed to `checkSubmit`. `formSourceName` is
      `state.values.source.name`. */
  datatype WizardState = WizardState(isErrored: bool, formSourceName: string,
                                     createdSource: CreatedSource, sourceTypes: seq<SourceType>)

  /** A react-intl message: its id, default text, and the `{name}` or
      `{type}` value interpolated into it. */
  datatype Text = Text(id: string, defaultMessage: string, arg: Option<string>)

  datatype Description = Translated(text: Text) | StatusError(error: string)

  datatype Variant = Danger | Info | Success

  /** The action link of a message: "Retry" (no click handler), or a link
      that removes the message and navigates to the created source's detail
      page. */
  datatype ActionLink = NoLink | RetryLink | EditSourceLink(sourceId: string) | ViewDetailsLink(sourceId: string)

  /** The payload of `addMessage`. `hasCustomId` says whether the
      `sources-wizard-notification-<time>` id is attached. */
  datatype Message = Message(title: Text, description: Description, variant: Variant,
                             hasCustomId: bool, link: ActionLink)

  /** `entries?.[0]?.availability_status_error` */
  function FirstStatusError(entries: Option<seq<StatusEntry>>): Option<string>
  {
    match entries
    case None => None
    case Some(es) => if |es| == 0 then None else es[0].availability_status_error
  }

  const UNKNOWN_ERROR: Text := Text("wizard.unknownError", "Unknown error", None)

  /** The description of the "unavailable" message: the first application's
      error, else the first endpoint's error, else "Unknown error". An empty
      error string counts as missing. */
  function UnavailableDescription(cs: CreatedSource): (d: Description)
    ensures Truthy(FirstStatusError(cs.applications)) ==>
              d == StatusError(FirstStatusError(cs.applications).value)
    ensures !Truthy(FirstStatusError(cs.applications)) && Truthy(FirstStatusError(cs.endpoint)) ==>
              d == StatusError(FirstStatusError(cs.endpoint).value)
    ensures !Truthy(FirstStatusError(cs.applications)) && !Truthy(FirstStatusError(cs.endpoint)) ==>
              d == Translated(UNKNOWN_ERROR)
    ensures d.StatusError? ==> |d.error| > 0
  {
    var appError := FirstStatusError(cs.applications);
    var endpointError := FirstStatusError(cs.endpoint);
    if Truthy(appError) then StatusError(appError.value)
    else if Truthy(endpointError) then StatusError(endpointError.value)
    else Translated(UNKNOWN_ERROR)
  }

  const ERROR_DESCRIPTION: Text :=
    Text("alert.error.description",
         "There was a problem while trying to add your source. Please try again. If the error persists, open a support case.",
         None)

  const TIMEOUT_DESCRIPTION: Text :=
    Text("alert.timeout.description",
         "We are still working to confirm credentials and app settings. To track progress, check the Status column in the Sources table.",
         None)

  /** The message for a submission that failed. */
  function ErrorMessage(state: WizardState): Message
  {
    Message(Text("alert.error.title", "Error adding source {name}", Some(state.formSourceName)),
            Translated(ERROR_DESCRIPTION),
            Danger, true, RetryLink)
  }

  /** The message for a created source whose status is "unavailable". */
  function UnavailableMessage(cs: CreatedSource): Message
  {
    Message(Text("alert.error.title", "Source {name} configuration unsuccessful", Some(cs.name)),
            UnavailableDescription(cs), Danger, true, EditSourceLink(cs.id))
  }

  /** The message for a created source whose status is "timeout". */
  function TimeoutMessage(cs: CreatedSource): Message
  {
    Message(Text("alert.timeout.title", "Source {name} configuration in progress", Some(cs.name)),
            Translated(TIMEOUT_DESCRIPTION),
            Info, false, NoLink)
  }

  /** The message for any other status: the connection succeeded. The
      description names the product of the source's type, when the catalog
      has it. */
  function SuccessMessage(cs: CreatedSource, sourceTypes: seq<SourceType>): Message
  {
    var typeName := match FindSourceType(sourceTypes, cs.source_type_id)
                    case Some(t) => Some(t.product_name)
                    case None => None;
    Message(Text("alert.success.title", "Source {name} connection successful", Some(cs.name)),
            Translated(Text("alert.success.description", "{type} connection is established.", typeName)),
            Success, true, ViewDetailsLink(cs.id))
  }

  /** The guard of `checkSubmit`: the last non-empty segment of the page's
      path is the last segment of the `sourcesNew` route. */
  predicate OnWizardRoute(pathname: string, sourcesNewPath: string)
  {
    CurrentSegment(pathname) == Some(RouteSegment(sourcesNewPath))
  }

  /** The one message `checkSubmit` dispatches off the wizard route.
      `status` is `computeSourceStatus(state.createdSource)`. */
  function Notification(state: WizardState, status: string): (m: Message)
    ensures state.isErrored ==> m == ErrorMessage(state)
    ensures !state.isErrored && status == "unavailable" ==> m == UnavailableMessage(state.createdSource)
    ensures !state.isErrored && status == "timeout" ==> m == TimeoutMessage(state.createdSource)
    ensures !state.isErrored && status != "unavailable" && status != "timeout" ==>
              m == SuccessMessage(state.createdSource, state.sourceTypes)
  {
    if state.isErrored then ErrorMessage(state)
    else if status == "unavailable" then UnavailableMessage(state.createdSource)
    else if status == "timeout" then TimeoutMessage(state.createdSource)
    else SuccessMessage(state.createdSource, state.sourceTypes)
  }

  /** `checkSubmit(state, dispatch, push, intl)`: nothing on the wizard's
      own route, otherwise exactly the one notification. */
  function CheckSubmit(state: WizardState, status: string, pathname: string,
                       sourcesNewPath: string): (r: Option<Message>)
    ensures r.None? <==> OnWizardRoute(pathname, sourcesNewPath)
    ensures r.Some? ==> r.value == Notification(state, status)
  {
    if OnWizardRoute(pathname, sourcesNewPath) then None else Some(Notification(state, status))
  }

  /** How the dispatched message is classified: danger exactly for a failed
      submission or an unavailable source; info, with neither the custom id
      nor an action link, exactly for a timeout; success otherwise. Only the
      unavailable and success links navigate, to the created source. */
  lemma NotificationClassification(state: WizardState, status: string)
    ensures Notification(state, status).variant == Danger <==> state.isErrored || status == "unavailable"
    ensures Notification(state, status).variant == Info <==> !state.isErrored && status == "timeout"
    ensures Notification(state, status).variant == Info <==> !Notification(state, status).hasCustomId
    ensures Notification(state, status).variant == Info <==> Notification(state, status).link == NoLink
    ensures Notification(state, status).link == RetryLink <==> state.isErrored
    ensures Notification(state, status).link.EditSourceLink? <==> !state.isErrored && status == "unavailable"
    ensures Notification(state, status).link.ViewDetailsLink? <==>
              !state.isErrored && status != "unavailable" && status != "timeout"
    ensures Notification(state, status).link.EditSourceLink? || Notification(state, status).link.ViewDetailsLink? ==>
              Notification(state, status).link.sourceId == state.createdSource.id
  {
  }

  /** On the wizard's own route nothing is dispatched, whatever the state:
      any page path that ends in `/` and the route's last segment. */
  lemma NoMessageOnWizardRoute(state: WizardState, status: string, segment: string,
                               page: string, prefix: string)
    requires |segment| > 0 && '/' !in segment
    ensures OnWizardRoute(page + "/" + segment, prefix + "/" + segment)
    ensures CheckSubmit(state, status, page + "/" + segment, prefix + "/" + segment) == None
  {
    CurrentSegmentAfterSlash(page, segment);
    SplitAfterSlash(prefix, segment);
  }

  /** A path ending in `/` and a non-empty segment has that segment as its
      last non-empty one. */
  lemma CurrentSegmentAfterSlash(page: string, segment: string)
    requires |segment| > 0 && '/' !in segment
    ensures CurrentSegment(page + "/" + segment) == Some(segment)
  {
    var path := page + "/" + segment;
    var parts := Split(path);
    SplitAfterSlash(page, segment);
    var r := CurrentSegment(path);
    assert r.Some? by {
      assert parts[|parts| - 1] != "";
    }
    var i :| 0 <= i < |parts| && parts[i] == r.value && forall j :: i < j < |parts| ==> parts[j] == "";
    assert i == |parts| - 1;
  }

  lemma {:induction false} SplitPlain(s: string)
    requires '/' !in s
    ensures Split(s) == [s]
  {
    if |s| > 0 {
      SplitPlain(s[1..]);
      assert s == [s[0]] + s[1..];
    }
  }

  lemma {:induction false} SplitAfterSlash(p: string, s: string)
    requires '/' !in s
    ensures |Split(p + "/" + s)| >= 2 && Split(p + "/" + s)[|Split(p + "/" + s)| - 1] == s
  {
    if |p| == 0 {
      SplitPlain(s);
      assert (p + "/" + s)[1..] == s;
    } else {
      SplitAfterSlash(p[1..], s);
      assert (p + "/" + s)[1..] == p[1..] + "/" + s;
    }
  }
}
