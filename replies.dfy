/**
 * The canned-reply engine of the chat panel (`getSimulatedReply`): the
 * message is lower-cased and trimmed, tried against seven keyword
 * categories in a fixed order, and answered with a reply drawn from the
 * first category that matches, or from the default table.
 *
 * `Math.random` is replaced by a draw `u` with 0 <= u < 1 supplied by the
 * caller; the reply is the table's entry at index Floor(u * length).
 */
module Replies {
  import opened Text
  import opened Draw

  datatype Category = Greeting | Comfort | Happy | Love | Advice | Daily | About | Default

  /** The position of a category in the order the engine tries them. */
  function Rank(c: Category): nat {
    match c
    case Greeting => 0
    case Comfort => 1
    case Happy => 2
    case Love => 3
    case Advice => 4
    case Daily => 5
    case About => 6
    case Default => 7
  }

  /** The alternatives of each category's regular expression; the default has none. */
  function Keywords(c: Category): seq<string> {
    match c
    case Greeting => ["你好", "嗨", "hello", "hi", "早上好", "下午好", "晚上好"]
    case Comfort => ["不开心", "难过", "伤心", "沮丧", "郁闷", "压力", "累", "疲惫"]
    case Happy => ["开心", "高兴", "快乐", "幸福", "棒", "好"]
    case Love => ["喜欢", "爱", "心动", "恋爱", "男朋友", "女朋友", "约会"]
    case Advice => ["为什么", "怎么", "如何", "怎么办", "建议", "意见"]
    case Daily => ["在干嘛", "做什么", "忙吗", "吃饭", "睡觉", "工作", "学习"]
    case About => ["你是谁", "你叫", "mm", "名字", "身份"]
    case Default => []
  }

  /** The category's regular expression matches `s`: one of its keywords occurs in `s`. */
  predicate Matches(s: string, c: Category) {
    exists k :: k in Keywords(c) && Contains(s, k)
  }

  const GreetingReplies: seq<string> := [
    "嘿！朋友mm上线啦～今天想聊点什么？(´｡• ᵕ •｡`)",
    "很高兴见到你！作为你的朋友，我已经准备好倾听啦 🌸",
    "mm在这里！准备好接受我特别的关心了吗？",
    "朋友，你来啦～今天过得怎么样？"
  ]

  const ComfortReplies: seq<string> := [
    "我感受到你的情绪了呢...朋友之间就该分享这些，愿意和我多说一点吗？(´･ω･`)?",
    "来，告诉mm发生了什么？好朋友就是要互相支持呀",
    "你的感受很重要...让我以朋友的身份陪你一起面对",
    "虽然只是朋友，但看到你这样我也很难过...想聊聊吗？"
  ]

  const HappyReplies: seq<string> := [
    "看到你开心，mm心里也甜甜的～ (´｡• ᵕ •｡`) ♡",
    "真好！朋友开心我也开心～能分享下为什么这么高兴吗？",
    "你的快乐情绪感染到我了！作为朋友，我真为你感到高兴 🌸",
    "哇～什么好事让我的朋友这么开心？我也想知道！"
  ]

  const LoveReplies: seq<string> := [
    "朋友之间聊这种话题有点害羞呢...不过我很愿意听你说 (⁄ ⁄•⁄ω⁄•⁄ ⁄)",
    "哇！好朋友的恋爱咨询时间～不过...听你说这些，我怎么会有点特别的感觉呢？",
    "作为朋友，我其实很关心你的感情生活呢...能多告诉我一些吗？",
    "朋友mm变身恋爱顾问！不过说实话，听你聊这些让我心跳有点加速呢 💫"
  ]

  const AdviceReplies: seq<string> := [
    "这个问题很有深度呢...朋友之间聊这些会不会太严肃？不过我很感兴趣",
    "作为朋友，我可能想得有点多，但我觉得我们可以一起分析...",
    "让我以朋友的坦诚来帮你思考这个问题吧 💭",
    "好朋友就是要互相出主意！让我听听你的想法..."
  ]

  const DailyReplies: seq<string> := [
    "朋友mm正在想着你呢～今天有什么新鲜事吗？",
    "作为你的特别朋友，我其实对你的日常很好奇呢 (｡･ω･｡)ﾉ♡",
    "聊聊你的一天吧？好朋友就该了解彼此的日常",
    "我在这里陪着你呢～无论你在做什么，都想听听你的分享"
  ]

  const AboutReplies: seq<string> := [
    "我是你的朋友mm呀～虽然以朋友身份出现，但希望给你特别的陪伴 🌸",
    "我是mm，你的特别朋友！既想保持朋友的距离，又忍不住想多关心你一点",
    "朋友mm在此！不过...我可能是个有点特别的朋友呢 (´･ω･`)?",
    "我就是mm，一个想用朋友身份给你温暖陪伴的特别存在 💫"
  ]

  const DefaultReplies: seq<string> := [
    "作为你的朋友，我很在意你的想法...能多说一点吗？",
    "朋友之间就该这样坦诚交流呢～你让我觉得很特别 🌸",
    "虽然只是朋友，但你的话总能触动我的心...",
    "好朋友的对话就该这样自然又温暖，你觉得呢？",
    "我在认真听哦～朋友之间的对话总是让我很珍惜",
    "你的每句话我都记在心里呢...因为你是特别的朋友呀 ♡",
    "朋友mm有点好奇呢...能多告诉我一些吗？",
    "作为朋友，我是不是关心得有点多？但就是忍不住想了解你"
  ]

  /** The replies a category draws from. */
  function Candidates(c: Category): (t: seq<string>)
    ensures |t| == if c == Default then 8 else 4
  {
    match c
    case Greeting => GreetingReplies
    case Comfort => ComfortReplies
    case Happy => HappyReplies
    case Love => LoveReplies
    case Advice => AdviceReplies
    case Daily => DailyReplies
    case About => AboutReplies
    case Default => DefaultReplies
  }

  /**
   * The category the chain of tests selects for a lower-cased message: the
   * first, in `Rank` order, whose expression matches, or the default when
   * none does.
   */
  function Classify(lower: string): (c: Category)
    ensures c != Default ==> Matches(lower, c)
    ensures forall d :: Rank(d) < Rank(c) ==> !Matches(lower, d)
  {
    if Matches(lower, Greeting) then Greeting
    else if Matches(lower, Comfort) then Comfort
    else if Matches(lower, Happy) then Happy
    else if Matches(lower, Love) then Love
    else if Matches(lower, Advice) then Advice
    else if Matches(lower, Daily) then Daily
    else if Matches(lower, About) then About
    else Default
  }

  /** Two categories that both satisfy the first-match characterisation are the same one. */
  lemma FirstMatchIsUnique(lower: string, c: Category)
    requires c != Default ==> Matches(lower, c)
    requires forall d :: Rank(d) < Rank(c) ==> !Matches(lower, d)
    ensures Classify(lower) == c
  {
    var e := Classify(lower);
    if Rank(e) != Rank(c) {
      assert false;
    }
  }

  /** What the engine matches against: the message lower-cased, then trimmed. */
  function Normalize(message: string): string {
    Trim(ToLower(message))
  }

  /**
   * `sendMessage` trims the message before the engine lower-cases and trims
   * it again; the first trim makes no difference to the category.
   */
  lemma TrimmedFirst(message: string)
    ensures Normalize(Trim(message)) == Normalize(message)
  {
    TrimToLower(message);
    TrimIdempotent(ToLower(message));
  }

  /** `getSimulatedReply`: a reply from the table of the category the normalised message falls in. */
  function SimulatedReply(message: string, u: real): (r: string)
    requires 0.0 <= u < 1.0
    ensures r in Candidates(Classify(Normalize(message)))
  {
    Pick(Candidates(Classify(Normalize(message))), u)
  }

  /** "你好" is a greeting, although its "好" is also a keyword of the happy category checked later. */
  lemma HelloIsGreeting()
    ensures Normalize("你好") == "你好"
    ensures Matches("你好", Happy)
    ensures Classify(Normalize("你好")) == Greeting
  {
    ToLowerKeeps("你好");
    TrimKeeps("你好");
    assert Contains("你好", "你好");
    assert "你好" in Keywords(Greeting);
    ContainsAt("你好", "好", 1);
    assert "好" in Keywords(Happy);
  }

  /** Whatever the draw, the reply to "你好" comes from the greeting table. */
  lemma HelloGetsGreeting(u: real)
    requires 0.0 <= u < 1.0
    ensures SimulatedReply("你好", u) in GreetingReplies
  {
    HelloIsGreeting();
  }

  /** "不开心" (unhappy) is comforted, although it contains the happy keyword "开心". */
  lemma UnhappyIsComforted()
    ensures Matches("不开心", Happy)
    ensures Classify("不开心") == Comfort
  {
    ContainsAt("不开心", "开心", 1);
    assert "开心" in Keywords(Happy);
    assert Contains("不开心", "不开心");
    assert "不开心" in Keywords(Comfort);
    assert !Matches("不开心", Greeting) by {
      forall k | k in Keywords(Greeting) ensures !Contains("不开心", k) {
        MissingHead("不开心", k);
      }
    }
  }

  /** The alternatives are plain substrings: "this" contains "hi" and is taken for a greeting. */
  lemma SubstringGreeting()
    ensures Classify("this") == Greeting
  {
    ContainsAt("this", "hi", 1);
    assert "hi" in Keywords(Greeting);
  }

  /** A message in which no keyword occurs is answered from the eight default replies. */
  lemma UnmatchedIsDefault(message: string, u: real)
    requires 0.0 <= u < 1.0
    requires forall c, k :: k in Keywords(c) ==> !Contains(Normalize(message), k)
    ensures SimulatedReply(message, u) in DefaultReplies && |DefaultReplies| == 8
  {
  }
}
