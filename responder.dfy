/** The canned-response simulator: a keyword classifier over the lower-cased
    user text and a pick from the chosen table. The random pick is an index
    parameter `r` in place of `Math.floor(Math.random() * length)`. */
module Responder {
  import opened Strings

  const Greetings: seq<string> := [
    "Hi there! How can I help you today?",
    "Hello! What can I do for you?",
    "Hey! How are you doing?"
  ]

  const HowAreYou: seq<string> := [
    "I am just a bot, but thanks for asking!",
    "Doing great! What about you?",
    "I don't have feelings, but I'm here to help!"
  ]

  const Defaults: seq<string> := [
    "I am not sure how to respond to that.",
    "Can you please clarify?",
    "That sounds interesting! Tell me more."
  ]

  /** The three response tables of the simulator. */
  datatype Category = Greeting | SmallTalk | Fallback

  function Table(c: Category): (t: seq<string>)
    ensures |t| == 3
  {
    match c
    case Greeting => Greetings
    case SmallTalk => HowAreYou
    case Fallback => Defaults
  }

  /** The keyword tests, on the lower-cased text. `"hi"` is a raw substring
      test, so words such as "this" or "which" count as greetings. */
  predicate MentionsGreeting(s: string)
  {
    Includes(Lower(s), "hello") || Includes(Lower(s), "hi")
  }

  predicate MentionsHowAreYou(s: string)
  {
    Includes(Lower(s), "how are you")
  }

  /** The if / else-if / else chain of the simulator. */
  function Classify(s: string): (c: Category)
    ensures c == Greeting <==> MentionsGreeting(s)
    ensures c == SmallTalk <==> !MentionsGreeting(s) && MentionsHowAreYou(s)
    ensures c == Fallback <==> !MentionsGreeting(s) && !MentionsHowAreYou(s)
  {
    if MentionsGreeting(s) then Greeting
    else if MentionsHowAreYou(s) then SmallTalk
    else Fallback
  }

  /** `randomResponse`: the element at the drawn index. */
  function RandomResponse(a: seq<string>, r: nat): (reply: string)
    requires r < |a|
    ensures reply in a
  {
    a[r]
  }

  /** `simulateBotResponse`: answer from the table the text is classified into. */
  function SimulateBotResponse(userMessage: string, r: nat): (reply: string)
    requires r < |Table(Classify(userMessage))|
    ensures MentionsGreeting(userMessage) ==> reply in Greetings
    ensures !MentionsGreeting(userMessage) && MentionsHowAreYou(userMessage) ==> reply in HowAreYou
    ensures !MentionsGreeting(userMessage) && !MentionsHowAreYou(userMessage) ==> reply in Defaults
  {
    RandomResponse(Table(Classify(userMessage)), r)
  }

  /** All nine canned replies. */
  function AllResponses(): seq<string>
  {
    Greetings + HowAreYou + Defaults
  }

  /** The nine canned replies are pairwise distinct. */
  lemma CannedRepliesDistinct()
    ensures |AllResponses()| == 9
    ensures forall i, j :: 0 <= i < j < 9 ==> AllResponses()[i] != AllResponses()[j]
  {
  }

  /** Every reply is one of the nine canned strings, and the reply tells which
      table was used: it lies in table c exactly when the text classifies as c. */
  lemma ReplyIdentifiesCategory(userMessage: string, r: nat, c: Category)
    requires r < |Table(Classify(userMessage))|
    ensures SimulateBotResponse(userMessage, r) in AllResponses()
    ensures SimulateBotResponse(userMessage, r) in Table(c) <==> Classify(userMessage) == c
  {
    var reply := SimulateBotResponse(userMessage, r);
    var k := Classify(userMessage);
    assert reply == Table(k)[r];
    CannedRepliesDistinct();
    var all := AllResponses();
    var offset := match k case Greeting => 0 case SmallTalk => 3 case Fallback => 6;
    assert all[offset + r] == reply;
    if c != k {
      forall j | 0 <= j < 3 ensures Table(c)[j] != reply {
        var cOffset := match c case Greeting => 0 case SmallTalk => 3 case Fallback => 6;
        assert all[cOffset + j] == Table(c)[j];
      }
    }
  }

  /** Every entry of the chosen table is the reply for some drawn index, and
      the reply for index r is exactly the r-th entry. */
  lemma EveryEntryReachable(userMessage: string, reply: string)
    ensures reply in Table(Classify(userMessage)) <==>
            exists r: nat :: r < 3 && SimulateBotResponse(userMessage, r) == reply
    ensures forall r: nat :: r < 3 ==> SimulateBotResponse(userMessage, r) == Table(Classify(userMessage))[r]
  {
    var t := Table(Classify(userMessage));
    if reply in t {
      var r :| 0 <= r < |t| && t[r] == reply;
      assert SimulateBotResponse(userMessage, r) == reply;
    }
  }

  /** Classification ignores case: the text and its lower-cased form are
      answered from the same table. */
  lemma ClassifyIgnoresCase(s: string)
    ensures Classify(Lower(s)) == Classify(s)
  {
    LowerIdempotent(s);
  }

  /** "Hi" is answered from the greetings. */
  lemma HiIsAGreeting(s: string)
    requires s == "Hi"
    ensures Classify(s) == Greeting
  {
    var l := Lower(s);
    assert l == "hi";
    assert OccursAt(l, "hi", 0);
    IncludesIffOccurs(l, "hi");
  }

  /** A word that merely contains "hi" is answered as a greeting. */
  lemma ThisIsAGreeting(s: string)
    requires s == "This"
    ensures Classify(s) == Greeting
  {
    var l := Lower(s);
    assert l[1] == 'h' && l[2] == 'i';
    assert l[1..3] == "hi";
    assert OccursAt(l, "hi", 1);
    IncludesIffOccurs(l, "hi");
  }

  /** The lowered text "how are you?" holds the small-talk phrase and
      neither greeting keyword: its only 'h' is followed by 'o'. */
  lemma SmallTalkPhraseOnly(l: string)
    requires l == "how are you?"
    ensures Includes(l, "how are you") && !Includes(l, "hi") && !Includes(l, "hello")
  {
    assert OccursAt(l, "how are you", 0);
    IncludesIffOccurs(l, "how are you");
    forall i | 0 <= i < |l| - 1 ensures l[i] != 'h' || l[i + 1] == 'o' { }
    AbsentPairExcludes(l, "hi");
    AbsentPairExcludes(l, "hello");
  }

  /** "How are you?" on its own reaches the small-talk table. */
  lemma HowAreYouIsSmallTalk(s: string)
    requires s == "How are you?"
    ensures Classify(s) == SmallTalk
  {
    assert Lower(s) == "how are you?";
    SmallTalkPhraseOnly(Lower(s));
  }
}
