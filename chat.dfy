/** The health chat: a keyword responder that answers the first topic whose
    keyword the lower-cased message contains, and the submit handler that
    stores the user's message and the reply in order. */
module Chat {
  import opened Wrappers
  import opened Strings

  /** The topics the responder knows, in the order it tries them. */
  datatype Topic = BloodPressure | BloodSugar | Exercise | Diet | Sleep | Stress | Greeting | Thanks

  const Topics := [BloodPressure, BloodSugar, Exercise, Diet, Sleep, Stress, Greeting, Thanks]

  /** The substrings that select each topic. */
  function Keywords(t: Topic): seq<string> {
    match t
    case BloodPressure => ["blood pressure", "hypertension"]
    case BloodSugar => ["diabetes", "blood sugar"]
    case Exercise => ["exercise", "workout"]
    case Diet => ["diet", "nutrition", "food"]
    case Sleep => ["sleep", "insomnia"]
    case Stress => ["stress", "anxiety"]
    case Greeting => ["hello", "hi", "hey", "good morning", "good afternoon"]
    case Thanks => ["thank", "thanks"]
  }

  const GreetingTail := "! I'm your AI health assistant. I'm here to provide general health information and guidance. How can I help you today? You can ask me about nutrition, exercise, managing common health conditions, or general wellness topics."

  const DefaultReply := "Thank you for your question. While I can provide general health information, I recommend discussing specific concerns with your healthcare provider who can give you personalized medical advice based on your individual health history. Is there a general health topic I can help you with, such as nutrition, exercise, sleep, or stress management?"
  const BloodPressureReply := "Blood pressure is an important indicator of cardiovascular health. Normal blood pressure is typically around 120/80 mmHg. If your readings are consistently elevated (above 130/80), I recommend consulting with your doctor. In the meantime, maintaining a healthy diet low in sodium, regular exercise, stress management, and adequate sleep can help manage blood pressure levels."
  const BloodSugarReply := "Blood sugar management is crucial for overall health. Normal fasting blood sugar levels are typically between 70-100 mg/dL. If you're concerned about diabetes risk, maintaining a healthy weight, eating a balanced diet rich in fiber and low in refined sugars, regular physical activity, and monitoring your blood glucose levels are important steps. Always consult with your healthcare provider for personalized advice."
  const ExerciseReply := "Regular physical activity is one of the best things you can do for your health. The general recommendation is at least 150 minutes of moderate-intensity aerobic activity or 75 minutes of vigorous-intensity activity per week, plus muscle-strengthening activities on 2 or more days. Start slowly if you're new to exercise, and consider activities you enjoy to make it sustainable. Always consult with your doctor before starting a new exercise program, especially if you have existing health conditions."
  const DietReply := "A balanced diet is fundamental to good health. Focus on whole foods including fruits, vegetables, whole grains, lean proteins, and healthy fats. Limit processed foods, added sugars, and excessive sodium. Stay well-hydrated by drinking plenty of water. Consider the Mediterranean diet as a heart-healthy eating pattern. Remember, everyone's nutritional needs are different, so consulting with a registered dietitian can provide personalized guidance."
  const SleepReply := "Quality sleep is essential for physical and mental health. Most adults need 7-9 hours of sleep per night. To improve sleep quality: maintain a consistent sleep schedule, create a relaxing bedtime routine, keep your bedroom cool and dark, limit screen time before bed, avoid caffeine late in the day, and manage stress. If you're experiencing persistent sleep problems, consult with your healthcare provider."
  const StressReply := "Managing stress is crucial for overall health and wellbeing. Effective stress management techniques include regular exercise, meditation or mindfulness practices, deep breathing exercises, adequate sleep, maintaining social connections, and engaging in hobbies you enjoy. If stress or anxiety is significantly impacting your daily life, please consider speaking with a mental health professional who can provide personalized support."
  const ThanksReply := "You're welcome! I'm here to help. Remember, while I can provide general health information, always consult with your healthcare provider for medical advice specific to your situation. Is there anything else you'd like to know?"

  /** The responder's canned replies. Each is kept as a tag and spelled out
      by Text(); only the greeting carries the user's name. */
  datatype Reply =
    | DefaultAdvice | BloodPressureAdvice | BloodSugarAdvice | ExerciseAdvice
    | DietAdvice | SleepAdvice | StressAdvice | Welcome | Hello(userName: string)
  {
    function Text(): string {
      match this
      case DefaultAdvice => DefaultReply
      case BloodPressureAdvice => BloodPressureReply
      case BloodSugarAdvice => BloodSugarReply
      case ExerciseAdvice => ExerciseReply
      case DietAdvice => DietReply
      case SleepAdvice => SleepReply
      case StressAdvice => StressReply
      case Welcome => ThanksReply
      case Hello(userName) => GreetingText(userName)
    }
  }

  function GreetingText(userName: string): string {
    "Hello " + userName + GreetingTail
  }

  /** The reply for a topic, or the default reply for None. */
  function ReplyFor(topic: Option<Topic>, userName: string): Reply {
    match topic
    case None => DefaultAdvice
    case Some(BloodPressure) => BloodPressureAdvice
    case Some(BloodSugar) => BloodSugarAdvice
    case Some(Exercise) => ExerciseAdvice
    case Some(Diet) => DietAdvice
    case Some(Sleep) => SleepAdvice
    case Some(Stress) => StressAdvice
    case Some(Thanks) => Welcome
    case Some(Greeting) => Hello(userName)
  }

  /** The topic `generateAIResponse` answers: its if-chain over the
      lower-cased message. */
  function ChosenTopic(userMessage: string): Option<Topic> {
    var lowerMessage := ToLower(userMessage);
    if Contains(lowerMessage, "blood pressure") || Contains(lowerMessage, "hypertension") then Some(BloodPressure)
    else if Contains(lowerMessage, "diabetes") || Contains(lowerMessage, "blood sugar") then Some(BloodSugar)
    else if Contains(lowerMessage, "exercise") || Contains(lowerMessage, "workout") then Some(Exercise)
    else if Contains(lowerMessage, "diet") || Contains(lowerMessage, "nutrition") || Contains(lowerMessage, "food") then Some(Diet)
    else if Contains(lowerMessage, "sleep") || Contains(lowerMessage, "insomnia") then Some(Sleep)
    else if Contains(lowerMessage, "stress") || Contains(lowerMessage, "anxiety") then Some(Stress)
    else if Contains(lowerMessage, "hello") || Contains(lowerMessage, "hi") || Contains(lowerMessage, "hey")
         || Contains(lowerMessage, "good morning") || Contains(lowerMessage, "good afternoon") then Some(Greeting)
    else if Contains(lowerMessage, "thank") || Contains(lowerMessage, "thanks") then Some(Thanks)
    else None
  }

  /** `generateAIResponse` (without its artificial delay). */
  function GenerateAIResponse(userMessage: string, userName: string): Reply {
    ReplyFor(ChosenTopic(userMessage), userName)
  }

  // ---------------------------------------------------------------------------
  // The reference definition: search the topic table in order.

  /** Some keyword of ks from position i on is contained in the message. */
  predicate MentionsFrom(lower: string, ks: seq<string>, i: nat)
    decreases |ks| - i
  {
    i < |ks| && (Contains(lower, ks[i]) || MentionsFrom(lower, ks, i + 1))
  }

  /** The message mentions one of the topic's keywords. */
  predicate Mentions(lower: string, t: Topic) {
    MentionsFrom(lower, Keywords(t), 0)
  }

  lemma {:induction false} MentionsFromSpec(lower: string, ks: seq<string>, i: nat)
    ensures MentionsFrom(lower, ks, i) <==> exists j :: i <= j < |ks| && Contains(lower, ks[j])
    decreases |ks| - i
  {
    if i < |ks| {
      MentionsFromSpec(lower, ks, i + 1);
    }
  }

  /** The first topic of the table from position i on that the message mentions. */
  function FirstFrom(lower: string, i: nat): Option<Topic>
    decreases |Topics| - i
  {
    if i >= |Topics| then None
    else if Mentions(lower, Topics[i]) then Some(Topics[i])
    else FirstFrom(lower, i + 1)
  }

  /** FirstFrom finds nothing exactly when no topic from i on is mentioned. */
  lemma {:induction false} FirstFromNone(lower: string, i: nat)
    ensures FirstFrom(lower, i).None? <==> forall k :: i <= k < |Topics| ==> !Mentions(lower, Topics[k])
    decreases |Topics| - i
  {
    if i < |Topics| {
      FirstFromNone(lower, i + 1);
    }
  }

  /** FirstFrom picks the earliest mentioned topic: it is mentioned and every
      topic before it is not. */
  lemma {:induction false} FirstFromEarliest(lower: string, i: nat)
    ensures FirstFrom(lower, i).Some? ==>
      exists j :: i <= j < |Topics| && Topics[j] == FirstFrom(lower, i).value && Mentions(lower, Topics[j])
        && forall k :: i <= k < j ==> !Mentions(lower, Topics[k])
    decreases |Topics| - i
  {
    if i < |Topics| {
      if Mentions(lower, Topics[i]) {
        assert FirstFrom(lower, i) == Some(Topics[i]);
        assert i <= i < |Topics| && Topics[i] == FirstFrom(lower, i).value;
      } else {
        assert FirstFrom(lower, i) == FirstFrom(lower, i + 1);
        FirstFromEarliest(lower, i + 1);
        if FirstFrom(lower, i + 1).Some? {
          var j :| i + 1 <= j < |Topics| && Topics[j] == FirstFrom(lower, i + 1).value && Mentions(lower, Topics[j])
            && forall k :: i + 1 <= k < j ==> !Mentions(lower, Topics[k]);
          assert forall k :: i <= k < j ==> !Mentions(lower, Topics[k]);
        }
      }
    }
  }

  lemma MentionsTwo(l: string, ks: seq<string>)
    requires |ks| == 2
    ensures MentionsFrom(l, ks, 0) <==> Contains(l, ks[0]) || Contains(l, ks[1])
  {
    assert !MentionsFrom(l, ks, 2);
  }

  lemma MentionsThree(l: string, ks: seq<string>)
    requires |ks| == 3
    ensures MentionsFrom(l, ks, 0) <==> Contains(l, ks[0]) || Contains(l, ks[1]) || Contains(l, ks[2])
  {
    assert !MentionsFrom(l, ks, 3);
    assert MentionsFrom(l, ks, 2) <==> Contains(l, ks[2]);
  }

  lemma MentionsFive(l: string, ks: seq<string>)
    requires |ks| == 5
    ensures MentionsFrom(l, ks, 0) <==>
      Contains(l, ks[0]) || Contains(l, ks[1]) || Contains(l, ks[2]) || Contains(l, ks[3]) || Contains(l, ks[4])
  {
    assert !MentionsFrom(l, ks, 5);
    assert MentionsFrom(l, ks, 4) <==> Contains(l, ks[4]);
    assert MentionsFrom(l, ks, 3) <==> Contains(l, ks[3]) || Contains(l, ks[4]);
    assert MentionsFrom(l, ks, 2) <==> Contains(l, ks[2]) || Contains(l, ks[3]) || Contains(l, ks[4]);
  }

  /** The keywords of each topic, written out. */
  lemma MentionsKeywords(l: string)
    ensures Mentions(l, BloodPressure) <==> Contains(l, "blood pressure") || Contains(l, "hypertension")
    ensures Mentions(l, BloodSugar) <==> Contains(l, "diabetes") || Contains(l, "blood sugar")
    ensures Mentions(l, Exercise) <==> Contains(l, "exercise") || Contains(l, "workout")
    ensures Mentions(l, Diet) <==> Contains(l, "diet") || Contains(l, "nutrition") || Contains(l, "food")
    ensures Mentions(l, Sleep) <==> Contains(l, "sleep") || Contains(l, "insomnia")
    ensures Mentions(l, Stress) <==> Contains(l, "stress") || Contains(l, "anxiety")
    ensures Mentions(l, Greeting) <==> (Contains(l, "hello") || Contains(l, "hi") || Contains(l, "hey")
      || Contains(l, "good morning") || Contains(l, "good afternoon"))
    ensures Mentions(l, Thanks) <==> Contains(l, "thank") || Contains(l, "thanks")
  {
    MentionsTwo(l, Keywords(BloodPressure));
    MentionsTwo(l, Keywords(BloodSugar));
    MentionsTwo(l, Keywords(Exercise));
    MentionsThree(l, Keywords(Diet));
    MentionsTwo(l, Keywords(Sleep));
    MentionsTwo(l, Keywords(Stress));
    MentionsFive(l, Keywords(Greeting));
    MentionsTwo(l, Keywords(Thanks));
  }

  /** The if-chain answers exactly the topic the table search finds. */
  lemma ChainIsTableSearch(userMessage: string)
    ensures ChosenTopic(userMessage) == FirstFrom(ToLower(userMessage), 0)
  {
    var l := ToLower(userMessage);
    MentionsKeywords(l);
    assert FirstFrom(l, 6) == if Mentions(l, Greeting) then Some(Greeting) else FirstFrom(l, 7);
    assert FirstFrom(l, 3) == if Mentions(l, Diet) then Some(Diet) else FirstFrom(l, 4);
  }

  /** First match wins: a message that mentions topic i is answered with topic
      i or an earlier one, never a later one, and the topic answered is one the
      message mentions. */
  lemma FirstMatchWins(userMessage: string, i: nat)
    requires i < |Topics| && Mentions(ToLower(userMessage), Topics[i])
    ensures ChosenTopic(userMessage).Some?
    ensures exists j :: 0 <= j <= i && ChosenTopic(userMessage) == Some(Topics[j]) && Mentions(ToLower(userMessage), Topics[j])
  {
    var l := ToLower(userMessage);
    ChainIsTableSearch(userMessage);
    FirstFromEarliest(l, 0);
    var j :| 0 <= j < |Topics| && Topics[j] == FirstFrom(l, 0).value && Mentions(l, Topics[j])
      && forall k :: 0 <= k < j ==> !Mentions(l, Topics[k]);
    assert j <= i;
  }

  /** A message that mentions no keyword gets the default reply. */
  lemma NoKeywordDefault(userMessage: string, userName: string)
    requires forall i :: 0 <= i < |Topics| ==> !Mentions(ToLower(userMessage), Topics[i])
    ensures GenerateAIResponse(userMessage, userName) == DefaultAdvice
  {
    ChainIsTableSearch(userMessage);
    FirstFromNone(ToLower(userMessage), 0);
  }

  /** Distinct topics get distinct replies, and only the greeting depends on
      the user's name. */
  lemma RepliesIdentifyTopic(t1: Option<Topic>, t2: Option<Topic>, n1: string, n2: string)
    ensures ReplyFor(t1, n1) == ReplyFor(t2, n2) ==> t1 == t2
    ensures t1 != Some(Greeting) ==> ReplyFor(t1, n1) == ReplyFor(t1, n2)
    ensures ReplyFor(t1, n1).Hello? <==> t1 == Some(Greeting)
  {
  }

  /** The greeting starts with "Hello " followed by the user's name. */
  lemma GreetingNamesUser(userName: string)
    ensures GreetingText(userName)[..6] == "Hello "
    ensures GreetingText(userName)[6..6 + |userName|] == userName
  {
  }

  lemma {:induction false} LowerOfUpper(s: string)
    ensures ToLower(ToUpper(s)) == ToLower(s)
  {
    var a, b := ToLower(ToUpper(s)), ToLower(s);
    forall i | 0 <= i < |s| ensures a[i] == b[i] {
    }
  }

  /** Matching ignores case: the reply depends only on the lower-cased
      message, so an upper-cased message gets the same reply. */
  lemma CaseInsensitive(m1: string, m2: string, userName: string)
    requires ToLower(m1) == ToLower(m2)
    ensures GenerateAIResponse(m1, userName) == GenerateAIResponse(m2, userName)
    ensures GenerateAIResponse(ToUpper(m1), userName) == GenerateAIResponse(m1, userName)
  {
    LowerOfUpper(m1);
  }

  /** "blood pressure and diabetes" mentions two topics and gets the blood
      pressure reply. */
  lemma BloodPressureBeatsDiabetes(userName: string)
    ensures ChosenTopic("blood pressure and diabetes") == Some(BloodPressure)
  {
    var m := "blood pressure and diabetes";
    assert ToLower(m) == m;
    assert OccursAt(m, "blood pressure", 0);
    ContainsAt(m, "blood pressure", 0);
  }

  lemma IsThisOkLower()
    ensures ToLower("is this ok") == "is this ok"
  {
  }

  lemma IsThisOkNoHealthTopic()
    ensures !Contains("is this ok", "blood pressure") && !Contains("is this ok", "hypertension")
    ensures !Contains("is this ok", "diabetes") && !Contains("is this ok", "blood sugar")
    ensures !Contains("is this ok", "exercise") && !Contains("is this ok", "workout")
  {
  }

  lemma IsThisOkNoLifestyleTopic()
    ensures !Contains("is this ok", "diet") && !Contains("is this ok", "nutrition") && !Contains("is this ok", "food")
    ensures !Contains("is this ok", "sleep") && !Contains("is this ok", "insomnia")
    ensures !Contains("is this ok", "stress") && !Contains("is this ok", "anxiety")
  {
  }

  /** The greeting test is the bare substring "hi", so "is this ok", which
      mentions no other topic, is answered with the greeting. */
  lemma HiInsideThis(userName: string)
    ensures GenerateAIResponse("is this ok", userName) == Hello(userName)
  {
    var m := "is this ok";
    IsThisOkLower();
    IsThisOkNoHealthTopic();
    IsThisOkNoLifestyleTopic();
    assert OccursAt(m, "hi", 4);
    ContainsAt(m, "hi", 4);
    GreetingWhenOnlyHi(m, m);
  }

  /** A message whose lower-cased form contains "hi" and no keyword of an
      earlier topic gets the greeting. */
  lemma GreetingWhenOnlyHi(userMessage: string, lower: string)
    requires lower == ToLower(userMessage)
    requires !Contains(lower, "blood pressure") && !Contains(lower, "hypertension")
    requires !Contains(lower, "diabetes") && !Contains(lower, "blood sugar")
    requires !Contains(lower, "exercise") && !Contains(lower, "workout")
    requires !Contains(lower, "diet") && !Contains(lower, "nutrition") && !Contains(lower, "food")
    requires !Contains(lower, "sleep") && !Contains(lower, "insomnia")
    requires !Contains(lower, "stress") && !Contains(lower, "anxiety")
    requires Contains(lower, "hi")
    ensures ChosenTopic(userMessage) == Some(Greeting)
  {
  }

  // ---------------------------------------------------------------------------
  // The chat window

  datatype Role = User | Assistant

  /** A stored chat message: the user's text, or the responder's reply. */
  datatype Message = UserMessage(text: string) | AssistantMessage(reply: Reply)
  {
    function Role(): Role {
      if UserMessage? then User else Assistant
    }

    /** The text the window shows. */
    function Content(): string {
      match this
      case UserMessage(text) => text
      case AssistantMessage(reply) => reply.Text()
    }
  }

  class ChatSession {
    const userName: string
    var messages: seq<Message>
    var input: string
    var loading: bool

    constructor(userName: string, initialMessages: seq<Message>)
      ensures this.userName == userName && messages == initialMessages && input == "" && !loading
    {
      this.userName := userName;
      messages := initialMessages;
      input := "";
      loading := false;
    }

    /** `handleSubmit`. `userInsertOk` and `aiInsertOk` say whether the two
        inserts succeeded; a failed insert ends the handler. */
    method Submit(userInsertOk: bool, aiInsertOk: bool)
      modifies this
      ensures Trim(old(input)) == "" || old(loading) ==>
        messages == old(messages) && input == old(input) && loading == old(loading)
      ensures Trim(old(input)) != "" && !old(loading) ==>
        var userMessage := Trim(old(input));
        && input == "" && !loading
        && messages == old(messages)
             + (if userInsertOk then [UserMessage(userMessage)] else [])
             + (if userInsertOk && aiInsertOk then [AssistantMessage(GenerateAIResponse(userMessage, userName))] else [])
    {
      if Trim(input) == "" || loading {
        return;
      }
      var userMessage := Trim(input);
      input := "";
      loading := true;
      if userInsertOk {
        messages := messages + [UserMessage(userMessage)];
        var aiResponse := GenerateAIResponse(userMessage, userName);
        if aiInsertOk {
          messages := messages + [AssistantMessage(aiResponse)];
        }
      }
      loading := false;
    }
  }

  /** A successful exchange appends the user's trimmed message and then the
      reply to it, and nothing else. */
  method ExchangeOrder(s: ChatSession)
    requires Trim(s.input) != "" && !s.loading
    modifies s
    ensures |s.messages| == |old(s.messages)| + 2
    ensures s.messages[..|old(s.messages)|] == old(s.messages)
    ensures s.messages[|old(s.messages)|] == UserMessage(Trim(old(s.input)))
    ensures s.messages[|old(s.messages)| + 1] == AssistantMessage(GenerateAIResponse(Trim(old(s.input)), s.userName))
    ensures s.messages[|old(s.messages)|].Role() == User && s.messages[|old(s.messages)| + 1].Role() == Assistant
    ensures s.input == "" && !s.loading
  {
    s.Submit(true, true);
  }
}
