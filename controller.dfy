/** The application controller: the session a visitor walks through and the
    four handlers that change it. Each handler's awaited remote calls are
    given to it as outcomes. The transitions are first stated as functions on
    a Session value; the App class then performs them field by field, as the
    handlers do with their state setters, and is proved to agree with them. */
module Controller {
  import opened Types
  import StepInput
  import GeminiService

  /** Shown when a failed history fetch carries no message. */
  const SUBMIT_ERROR_FALLBACK := "오류가 발생했습니다."
  /** Shown when a failed plan or post generation carries no message. */
  const SELECT_ERROR_FALLBACK := "콘텐츠 생성 중 오류가 발생했습니다."

  /** `err.message || fallback`: the error text put on the banner. */
  function ErrorText(message: string, fallback: string): (shown: string)
    ensures message != "" ==> shown == message
    ensures message == "" ==> shown == fallback
  {
    if message != "" then message else fallback
  }

  /** Every state field of the controller. */
  datatype Session = Session(
    step: AppStep,
    isLoading: bool,
    error: Option<string>,
    place: string,
    emotion: string,
    historyData: Option<HistoryData>,
    selectedType: Option<ContentType>,
    contentPlan: Option<ContentPlan>,
    socialPost: Option<SocialPost>,
    imageUrl: Option<string>)

  /** The session at start-up. */
  const Initial := Session(INPUT, false, None, "", "", None, None, None, None, None)

  /** `handleInputSubmit` given the outcome of the history fetch. */
  function Submit(s: Session, place: string, emotion: string, fetched: Result<HistoryData>): (t: Session)
    ensures t.place == place && t.emotion == emotion && !t.isLoading
    ensures t.step == HISTORY <==> fetched.Ok? || s.step == HISTORY
    ensures Consistent(s) ==> Consistent(t)
  {
    var started := s.(place := place, emotion := emotion, isLoading := true, error := None);
    var settled :=
      match fetched
      case Ok(history) => started.(historyData := Some(history), step := HISTORY)
      case Err(message) => started.(error := Some(ErrorText(message, SUBMIT_ERROR_FALLBACK)));
    settled.(isLoading := false)
  }

  /** `handleTypeSelect` given the outcomes of plan, post and image
      generation. The post and image outcomes are only looked at when the
      plan succeeded, and the image only when the post did too. */
  function SelectType(s: Session, contentType: ContentType, plan: Result<ContentPlan>,
                      post: Result<SocialPost>, image: Option<string>): (t: Session)
    ensures t.place == s.place && t.emotion == s.emotion && t.historyData == s.historyData
    ensures s.step != RESULT ==> (t.step == RESULT <==> s.historyData.Some? && plan.Ok? && post.Ok?)
    ensures Consistent(s) ==> Consistent(t)
  {
    if s.historyData.None? then s
    else
      var started := s.(selectedType := Some(contentType), isLoading := true, error := None, imageUrl := None);
      var settled :=
        match plan
        case Err(message) => started.(error := Some(ErrorText(message, SELECT_ERROR_FALLBACK)))
        case Ok(p) =>
          var planned := started.(contentPlan := Some(p));
          match post
          case Err(message) => planned.(error := Some(ErrorText(message, SELECT_ERROR_FALLBACK)))
          case Ok(q) => planned.(socialPost := Some(q), imageUrl := image, step := RESULT);
      settled.(isLoading := false)
  }

  /** `handleReset`: every field but the loading flag back to its start value. */
  function Reset(s: Session): (t: Session)
    ensures t == Initial.(isLoading := s.isLoading)
  {
    s.(step := INPUT, place := "", emotion := "", historyData := None, selectedType := None,
       contentPlan := None, socialPost := None, imageUrl := None, error := None)
  }

  /** The banner's close button. */
  function DismissError(s: Session): (t: Session)
    ensures t.error == None && t.step == s.step
    ensures Consistent(s) ==> Consistent(t)
  {
    s.(error := None)
  }

  /** What holds of every session the handlers can produce: no handler
      leaves the loading flag on, no step is PLANNING, the INPUT step holds no
      results, HISTORY has its history, and RESULT has the history, the
      chosen type, the plan and the post it shows. */
  predicate Consistent(s: Session)
  {
    && s.step != PLANNING
    && !s.isLoading
    && (s.step == INPUT ==>
          s.historyData.None? && s.selectedType.None? && s.contentPlan.None? &&
          s.socialPost.None? && s.imageUrl.None?)
    && (s.step == HISTORY ==> s.historyData.Some?)
    && (s.step == RESULT ==>
          s.historyData.Some? && s.selectedType.Some? && s.contentPlan.Some? && s.socialPost.Some?)
  }

  /** A user action together with the outcomes of the remote calls it makes. */
  datatype Event =
    | InputSubmitted(place: string, emotion: string, fetched: Result<HistoryData>)
    | TypeSelected(contentType: ContentType, plan: Result<ContentPlan>, post: Result<SocialPost>, image: Option<string>)
    | ResetClicked
    | ErrorDismissed

  function Next(s: Session, e: Event): Session
  {
    match e
    case InputSubmitted(place, emotion, fetched) => Submit(s, place, emotion, fetched)
    case TypeSelected(t, plan, post, image) => SelectType(s, t, plan, post, image)
    case ResetClicked => Reset(s)
    case ErrorDismissed => DismissError(s)
  }

  /** The session after a run of events, oldest first. */
  function Run(s: Session, events: seq<Event>): Session
    decreases |events|
  {
    if events == [] then s else Run(Next(s, events[0]), events[1..])
  }

  /** Reset gives the start-up session, loading flag aside, and resetting
      twice is resetting once. */
  lemma ResetIsInitial(s: Session)
    ensures Reset(s) == Initial.(isLoading := s.isLoading)
    ensures Reset(Reset(s)) == Reset(s)
  {
  }

  /** A submission stores the inputs and clears the loading flag; a
      successful fetch moves to HISTORY with the fetched history, and a failed
      one keeps the step and the history and shows the thrown message, or
      "오류가 발생했습니다." when that message is empty; nothing else changes. */
  lemma SubmitOutcome(s: Session, place: string, emotion: string, fetched: Result<HistoryData>)
    ensures var t := Submit(s, place, emotion, fetched);
      && t.place == place && t.emotion == emotion && !t.isLoading
      && (fetched.Ok? ==> t.step == HISTORY && t.historyData == Some(fetched.value) && t.error == None)
      && (fetched.Err? ==>
            t.step == s.step && t.historyData == s.historyData && t.error.Some? && t.error.value != "" &&
            (fetched.message != "" ==> t.error == Some(fetched.message)) &&
            (fetched.message == "" ==> t.error == Some(SUBMIT_ERROR_FALLBACK)))
      && t.(place := s.place, emotion := s.emotion, isLoading := s.isLoading, error := s.error,
            step := s.step, historyData := s.historyData) == s
  {
  }

  /** Choosing a type before any history exists changes nothing. */
  lemma SelectWithoutHistoryIsNoop(s: Session, contentType: ContentType, plan: Result<ContentPlan>,
                                   post: Result<SocialPost>, image: Option<string>)
    requires s.historyData.None?
    ensures SelectType(s, contentType, plan, post, image) == s
  {
  }

  /** Once a history exists, choosing a type always records the type and
      clears the loading flag; the step becomes RESULT exactly when both the
      plan and the post were generated, whatever became of the image, and
      then the shown image is the generated one or none. A failure shows the
      failing call's message, or "콘텐츠 생성 중 오류가 발생했습니다." when it is
      empty. Place, emotion and history are never touched. */
  lemma ResultIffPlanAndPost(s: Session, contentType: ContentType, plan: Result<ContentPlan>,
                             post: Result<SocialPost>, image: Option<string>)
    requires s.historyData.Some? && s.step != RESULT
    ensures var t := SelectType(s, contentType, plan, post, image);
      && t.selectedType == Some(contentType) && !t.isLoading
      && (t.step == RESULT <==> plan.Ok? && post.Ok?)
      && (t.step == RESULT ==> t.imageUrl == image && t.error == None)
      && (t.step != RESULT ==> t.step == s.step && t.imageUrl == None && t.error.Some? && t.error.value != "")
      && (plan.Err? ==> t.error == Some(ErrorText(plan.message, SELECT_ERROR_FALLBACK)))
      && (plan.Ok? && post.Err? ==> t.error == Some(ErrorText(post.message, SELECT_ERROR_FALLBACK)))
      && t.(selectedType := s.selectedType, isLoading := s.isLoading, error := s.error, imageUrl := s.imageUrl,
            contentPlan := s.contentPlan, socialPost := s.socialPost, step := s.step) == s
  {
  }

  /** A failed post keeps the new plan but the previous post; a failed plan
      keeps both the previous plan and the previous post. */
  lemma FailedSelectKeepsEarlierResults(s: Session, contentType: ContentType, plan: Result<ContentPlan>,
                                        post: Result<SocialPost>, image: Option<string>)
    requires s.historyData.Some?
    ensures var t := SelectType(s, contentType, plan, post, image);
      && (plan.Ok? && post.Err? ==>
            t.contentPlan == Some(plan.value) && t.socialPost == s.socialPost && t.step == s.step)
      && (plan.Err? ==> t.contentPlan == s.contentPlan && t.socialPost == s.socialPost && t.step == s.step)
  {
  }

  /** Whatever a failed selection leaves behind, a session that enters
      RESULT shows the type, plan and post of the selection that got it there. */
  lemma ResultShowsFreshOutputs(s: Session, contentType: ContentType, plan: Result<ContentPlan>,
                                post: Result<SocialPost>, image: Option<string>)
    requires s.step != RESULT && SelectType(s, contentType, plan, post, image).step == RESULT
    ensures var t := SelectType(s, contentType, plan, post, image);
      && plan.Ok? && post.Ok?
      && t.selectedType == Some(contentType) && t.contentPlan == Some(plan.value)
      && t.socialPost == Some(post.value) && t.imageUrl == image
  {
  }

  /** Dismissing the banner clears the error and nothing else. */
  lemma DismissOnlyClearsError(s: Session)
    ensures DismissError(s).error == None
    ensures DismissError(s).(error := s.error) == s
  {
  }

  /** Every handler keeps the session consistent. */
  lemma NextConsistent(s: Session, e: Event)
    requires Consistent(s)
    ensures Consistent(Next(s, e))
  {
  }

  /** Every session reachable from start-up is consistent. */
  lemma {:induction false} RunConsistent(s: Session, events: seq<Event>)
    requires Consistent(s)
    ensures Consistent(Run(s, events))
    decreases |events|
  {
    if events != [] {
      NextConsistent(s, events[0]);
      RunConsistent(Next(s, events[0]), events[1..]);
    }
  }

  /** The service's own error messages are never empty, so the controller's
      fallback texts are never what the banner shows for them. */
  lemma ServiceErrorsShownAsIs()
    ensures ErrorText(GeminiService.HISTORY_FETCH_ERROR, SUBMIT_ERROR_FALLBACK) == GeminiService.HISTORY_FETCH_ERROR
    ensures ErrorText(GeminiService.PLAN_ERROR, SELECT_ERROR_FALLBACK) == GeminiService.PLAN_ERROR
    ensures ErrorText(GeminiService.POST_ERROR, SELECT_ERROR_FALLBACK) == GeminiService.POST_ERROR
  {
  }

  /** The controller component, its state held in fields that the handlers
      set one after another. */
  class App {
    var step: AppStep
    var isLoading: bool
    var error: Option<string>
    var place: string
    var emotion: string
    var historyData: Option<HistoryData>
    var selectedType: Option<ContentType>
    var contentPlan: Option<ContentPlan>
    var socialPost: Option<SocialPost>
    var imageUrl: Option<string>

    /** The fields as one Session value. */
    function State(): Session
      reads this
    {
      Session(step, isLoading, error, place, emotion, historyData, selectedType, contentPlan, socialPost, imageUrl)
    }

    ghost predicate Valid()
      reads this
    {
      Consistent(State())
    }

    constructor ()
      ensures Valid() && State() == Initial
    {
      step := INPUT;
      isLoading := false;
      error := None;
      place := "";
      emotion := "";
      historyData := None;
      selectedType := None;
      contentPlan := None;
      socialPost := None;
      imageUrl := None;
    }

    /** `handleInputSubmit`, called by the form only with inputs that are
        non-empty after trimming. */
    method HandleInputSubmit(inputPlace: string, inputEmotion: string, fetched: Result<HistoryData>)
      requires Valid()
      requires StepInput.CanSubmit(inputPlace, inputEmotion)
      modifies this
      ensures Valid()
      ensures State() == Submit(old(State()), inputPlace, inputEmotion, fetched)
    {
      place := inputPlace;
      emotion := inputEmotion;
      isLoading := true;
      error := None;
      if fetched.Ok? {
        historyData := Some(fetched.value);
        step := HISTORY;
      } else {
        error := Some(ErrorText(fetched.message, SUBMIT_ERROR_FALLBACK));
      }
      isLoading := false;
      NextConsistent(old(State()), InputSubmitted(inputPlace, inputEmotion, fetched));
    }

    /** `handleTypeSelect`. */
    method HandleTypeSelect(contentType: ContentType, plan: Result<ContentPlan>,
                            post: Result<SocialPost>, image: Option<string>)
      requires Valid()
      modifies this
      ensures Valid()
      ensures State() == SelectType(old(State()), contentType, plan, post, image)
    {
      if historyData.None? {
        return;
      }
      selectedType := Some(contentType);
      isLoading := true;
      error := None;
      imageUrl := None;
      if plan.Err? {
        error := Some(ErrorText(plan.message, SELECT_ERROR_FALLBACK));
      } else {
        contentPlan := Some(plan.value);
        if post.Err? {
          error := Some(ErrorText(post.message, SELECT_ERROR_FALLBACK));
        } else {
          socialPost := Some(post.value);
          imageUrl := image;
          step := RESULT;
        }
      }
      isLoading := false;
      NextConsistent(old(State()), TypeSelected(contentType, plan, post, image));
    }

    /** `handleReset`. */
    method HandleReset()
      requires Valid()
      modifies this
      ensures Valid()
      ensures State() == Reset(old(State()))
    {
      step := INPUT;
      place := "";
      emotion := "";
      historyData := None;
      selectedType := None;
      contentPlan := None;
      socialPost := None;
      imageUrl := None;
      error := None;
    }

    /** The error banner's close button. */
    method HandleDismissError()
      requires Valid()
      modifies this
      ensures Valid()
      ensures State() == DismissError(old(State()))
    {
      error := None;
    }
  }

  /** A visit to 감천문화마을 feeling 그리움: the history arrives, a webtoon is
      chosen, plan and post succeed and the image fails, and the session
      shows its result without an image. */
  method GamcheonWebtoonScenario(history: HistoryData, plan: ContentPlan, post: SocialPost)
    returns (app: App)
    ensures app.Valid()
    ensures app.step == RESULT && app.imageUrl == None
    ensures app.historyData == Some(history) && app.selectedType == Some(WEBTOON)
    ensures app.contentPlan == Some(plan) && app.socialPost == Some(post) && !app.isLoading
  {
    app := new App();
    StepInput.CanSubmitIff("감천문화마을", "그리움");
    assert !StepInput.IsTrimmed("감천문화마을"[0]) && !StepInput.IsTrimmed("그리움"[0]);
    app.HandleInputSubmit("감천문화마을", "그리움", Ok(history));
    app.HandleTypeSelect(WEBTOON, Ok(plan), Ok(post), None);
  }
}
