/** The chat page: the client's own canned advice, which it falls back on
    when the backend's chat endpoint does not answer, the keyword match that
    picks a topic, the quick questions, and the message list the panel
    shows. `Math.random()` is the parameter `r`, a real in [0, 1). */
module AiChat {
  import opened Text
  import Monolith

  datatype Topic = Diet | Exercise | Weight | General

  const DietReplies: seq<string> := [
    "Here's a healthy diet plan for you: Focus on lean proteins (chicken, fish, beans), whole grains (brown rice, quinoa), plenty of vegetables, and healthy fats (avocado, nuts). Aim for 5-6 small meals throughout the day.",
    "For weight loss, try the Mediterranean diet: olive oil, fish, vegetables, fruits, and whole grains. Limit processed foods and added sugars.",
    "A balanced diet includes: 50% vegetables/fruits, 25% lean protein, 25% whole grains. Stay hydrated with 8+ glasses of water daily."]

  const ExerciseReplies: seq<string> := [
    "For beginners: Start with 20-30 minutes of cardio 3x/week (walking, cycling). Add strength training 2x/week with bodyweight exercises.",
    "High-intensity workouts: Try HIIT training - 30 seconds intense exercise, 30 seconds rest, repeat for 15-20 minutes.",
    "Strength training: Focus on compound movements like squats, push-ups, and deadlifts. Aim for 3 sets of 8-12 repetitions."]

  const WeightReplies: seq<string> := [
    "Weight loss tips: Create a calorie deficit (burn more than you consume), focus on whole foods, drink plenty of water, and maintain consistent exercise routine.",
    "Track your progress: Weigh yourself weekly, take body measurements, and focus on how you feel rather than just the scale.",
    "Sustainable weight loss: Aim for 1-2 pounds per week through diet and exercise. Avoid extreme restrictions."]

  const GeneralReplies: seq<string> := [
    "Great question! Remember to listen to your body and make gradual changes. Consistency is key to achieving your fitness goals.",
    "For optimal health, combine regular exercise with a balanced diet, adequate sleep (7-9 hours), and stress management.",
    "Don't forget to warm up before exercise and cool down afterward. Proper form is more important than intensity."]

  /** The `aiResponses` table: three replies per topic. */
  function Replies(t: Topic): (r: seq<string>)
    ensures |r| == 3
  {
    match t
    case Diet => DietReplies
    case Exercise => ExerciseReplies
    case Weight => WeightReplies
    case General => GeneralReplies
  }

  predicate MentionsDiet(message: string) {
    Mentions(message, "diet") || Mentions(message, "food") || Mentions(message, "nutrition")
  }

  predicate MentionsExercise(message: string) {
    Mentions(message, "exercise") || Mentions(message, "workout") || Mentions(message, "training")
  }

  predicate MentionsWeight(message: string) {
    Mentions(message, "weight") || Mentions(message, "lose") || Mentions(message, "fat")
  }

  /** The topic the keyword tests of `generateAIResponse` choose, in their
      order: a diet word wins over everything, an exercise word over a
      weight word; no keyword at all is the general topic. */
  function Classify(message: string): (t: Topic)
    ensures t == Diet <==> MentionsDiet(message)
    ensures t == Exercise <==> !MentionsDiet(message) && MentionsExercise(message)
    ensures t == Weight <==> !MentionsDiet(message) && !MentionsExercise(message) && MentionsWeight(message)
    ensures t == General <==> !MentionsDiet(message) && !MentionsExercise(message) && !MentionsWeight(message)
  {
    if MentionsDiet(message) then Diet
    else if MentionsExercise(message) then Exercise
    else if MentionsWeight(message) then Weight
    else General
  }

  /** `Math.floor(r * 3)`: the index a random number picks in a list of
      three. */
  function Pick(r: real): (i: nat)
    requires 0.0 <= r < 1.0
    ensures i < 3
    ensures i as real <= r * 3.0 < i as real + 1.0
  {
    (r * 3.0).Floor
  }

  /** `generateAIResponse`: one of the three replies of the message's topic. */
  function GenerateAIResponse(message: string, r: real): (reply: string)
    requires 0.0 <= r < 1.0
    ensures reply in Replies(Classify(message))
  {
    Replies(Classify(message))[Pick(r)]
  }

  /** Every reply of the message's topic is the one some random number picks. */
  lemma EveryReplyReachable(message: string, i: nat)
    requires i < 3
    ensures GenerateAIResponse(message, i as real / 3.0) == Replies(Classify(message))[i]
  {
    assert (i as real / 3.0) * 3.0 == i as real;
  }

  /** No reply is shared: a reply tells the topic it was chosen for, and
      its place in that topic's list. */
  lemma ReplyTellsTopic(s: Topic, t: Topic, i: nat, j: nat)
    requires i < 3 && j < 3 && Replies(s)[i] == Replies(t)[j]
    ensures s == t && i == j
  {
    ReplyLengths();
    assert |Replies(s)[i]| == |Replies(t)[j]|;
  }

  /** The lengths of the twelve replies, all different. */
  lemma ReplyLengths()
    ensures |DietReplies[0]| == 217 && |DietReplies[1]| == 139 && |DietReplies[2]| == 130
    ensures |ExerciseReplies[0]| == 134 && |ExerciseReplies[1]| == 116 && |ExerciseReplies[2]| == 120
    ensures |WeightReplies[0]| == 159 && |WeightReplies[1]| == 121 && |WeightReplies[2]| == 107
    ensures |GeneralReplies[0]| == 125 && |GeneralReplies[1]| == 117 && |GeneralReplies[2]| == 110
  {
  }

  /** The fallback is at least as specific as the server's own advice:
      whenever the server gives diet advice the client gives diet advice,
      exercise advice an exercise or diet reply, weight advice anything but
      a general reply; a general reply from the client means the server
      would have greeted. */
  lemma FallbackRefinesServer(message: string)
    ensures Monolith.GenerateAIResponse(message) == Monolith.DietAdvice ==> Classify(message) == Diet
    ensures Monolith.GenerateAIResponse(message) == Monolith.ExerciseAdvice ==> Classify(message) in {Diet, Exercise}
    ensures Monolith.GenerateAIResponse(message) == Monolith.WeightAdvice ==> Classify(message) != General
    ensures Classify(message) == General ==> Monolith.GenerateAIResponse(message) == Monolith.Greeting
  {
  }

  // ------------------------------------------------------------ quick questions

  const DietQuestion: string := "What's a healthy meal plan for weight loss?"
  const ExerciseQuestion: string := "What exercises should I do for building muscle?"
  const WeightQuestion: string := "How can I lose weight safely and effectively?"

  /** `askQuickQuestion`'s table; a kind it lacks puts the text of
      `undefined` in the input. */
  function QuickQuestion(kind: string): (q: string)
    ensures q != []
  {
    if kind == "diet" then DietQuestion
    else if kind == "exercise" then ExerciseQuestion
    else if kind == "weight" then WeightQuestion
    else "undefined"
  }

  /** The letters of the diet question: no 'd', 'u', 'x' or 'k' in either
      case, and no 'tr'. */
  lemma DietQuestionLacksDU()
    ensures forall i | 0 <= i < |DietQuestion| ::
              DietQuestion[i] != 'd' && DietQuestion[i] != 'D' && DietQuestion[i] != 'u' && DietQuestion[i] != 'U'
  {
  }

  lemma DietQuestionLacksXK()
    ensures forall i | 0 <= i < |DietQuestion| ::
              DietQuestion[i] != 'x' && DietQuestion[i] != 'X' && DietQuestion[i] != 'k' && DietQuestion[i] != 'K'
  {
  }

  lemma DietQuestionLacksTR()
    ensures forall i | 0 <= i < |DietQuestion| - 1 ::
              !(LowerChar(DietQuestion[i]) == 't' && LowerChar(DietQuestion[i + 1]) == 'r')
  {
  }

  lemma DietQuestionNoDietWord()
    ensures !MentionsDiet(DietQuestion)
  {
    DietQuestionLacksDU();
    LowerLacks(DietQuestion, 'd', 'D');
    LowerLacks(DietQuestion, 'u', 'U');
    assert "diet"[0] == 'd' && "food"[3] == 'd' && "nutrition"[1] == 'u';
  }

  lemma DietQuestionNoExerciseWord()
    ensures !MentionsExercise(DietQuestion)
  {
    DietQuestionLacksXK();
    LowerLacks(DietQuestion, 'x', 'X');
    LowerLacks(DietQuestion, 'k', 'K');
    DietQuestionLacksTR();
    LowerLacksPair(DietQuestion, 't', 'r');
    assert "exercise"[1] == 'x' && "workout"[3] == 'k' && "training"[0] == 't' && "training"[1] == 'r';
  }

  lemma DietQuestionSaysWeight()
    ensures Mentions(DietQuestion, "weight")
  {
    var low := Lower(DietQuestion);
    assert low[31] == 'w' && low[32] == 'e' && low[33] == 'i' && low[34] == 'g' && low[35] == 'h' && low[36] == 't';
    assert OccursAt(low, "weight", 31);
  }

  /** The diet quick question draws weight advice: it names no diet word
      and no exercise word, but says 'weight'. */
  lemma DietQuestionGetsWeightReply()
    ensures Classify(QuickQuestion("diet")) == Weight
  {
    DietQuestionNoDietWord();
    DietQuestionNoExerciseWord();
    DietQuestionSaysWeight();
  }

  /** Case does not matter to the choice of topic. */
  lemma {:induction false} ClassifyIgnoresCase(message: string)
    ensures Classify(Lower(message)) == Classify(message)
  {
    LowerIdempotent(message);
  }

  // ------------------------------------------------------------ the panel

  datatype Sender = User | Bot

  /** A message `addMessage` appends to the list. */
  datatype Line = Line(sender: Sender, content: string)

  /** What the request to the chat endpoint came to: a reply with its
      `response`, or anything else (an error status, a body that is not
      JSON, no server), after which the client answers by itself. */
  datatype Answer = Served(response: string) | Fallback

  /** The bot's line for a message. */
  function BotReply(message: string, answer: Answer, r: real): (reply: string)
    requires 0.0 <= r < 1.0
    ensures answer.Served? ==> reply == answer.response
    ensures answer.Fallback? ==> reply in Replies(Classify(message))
  {
    match answer
    case Served(response) => response
    case Fallback => GenerateAIResponse(message, r)
  }

  /** The chat input and the message list. */
  class ChatPanel {
    var input: string
    var messages: seq<Line>

    constructor ()
      ensures input == [] && messages == []
    {
      input := [];
      messages := [];
    }

    /** `sendMessage`: a message that trims to nothing is ignored, the
        input left as it was; otherwise the trimmed message and the bot's
        reply are appended, in that order, and the input is cleared. */
    method SendMessage(answer: Answer, r: real)
      requires 0.0 <= r < 1.0
      modifies this
      ensures AllSpace(old(input)) ==> input == old(input) && messages == old(messages)
      ensures !AllSpace(old(input)) ==>
                var message := Trim(old(input));
                && input == []
                && messages == old(messages) + [Line(User, message), Line(Bot, BotReply(message, answer, r))]
    {
      var message := Trim(input);
      TrimEmptyIff(input);
      if message == [] {
        return;
      }
      messages := messages + [Line(User, message)];
      input := [];
      messages := messages + [Line(Bot, BotReply(message, answer, r))];
    }

    /** `askQuickQuestion`: the kind's question is put in the input and
        sent as `sendMessage` sends any input. */
    method AskQuickQuestion(kind: string, answer: Answer, r: real)
      requires 0.0 <= r < 1.0
      modifies this
      ensures var q := QuickQuestion(kind);
              AllSpace(q) ==> input == q && messages == old(messages)
      ensures var q := QuickQuestion(kind);
              !AllSpace(q) ==>
                && input == []
                && messages == old(messages) + [Line(User, Trim(q)), Line(Bot, BotReply(Trim(q), answer, r))]
    {
      input := QuickQuestion(kind);
      SendMessage(answer, r);
    }

    /** The input's key handler: Enter sends, any other key changes nothing here. */
    method KeyPress(key: string, answer: Answer, r: real)
      requires 0.0 <= r < 1.0
      modifies this
      ensures key != "Enter" ==> input == old(input) && messages == old(messages)
      ensures key == "Enter" && AllSpace(old(input)) ==> input == old(input) && messages == old(messages)
      ensures key == "Enter" && !AllSpace(old(input)) ==>
                var message := Trim(old(input));
                && input == []
                && messages == old(messages) + [Line(User, message), Line(Bot, BotReply(message, answer, r))]
    {
      if key == "Enter" {
        SendMessage(answer, r);
      }
    }
  }
}
