/**
 * The keyword classifier of the rule-based chat responder of `POST /api/chat`
 * (server.js) and of its router twin (routes/chat.js): the if/else-if chain
 * that picks the branch a message is answered from.
 */
module Chat {
  import opened Text
  import opened Base

  /** The branches of the if/else-if chain, in source order. */
  datatype Topic =
    | Greeting | Pricing | BrainCharge | ResourcesClub | Intensive
    | Reboot | Mentorship | Consultation | Founder | Contacts | Help

  /**
   * The keyword chain of the responder: the first branch one of whose
   * keywords occurs in the (lower-cased) message decides the topic.
   */
  function Classify(m: string): (t: Topic)
    ensures t == FirstMatch(m, 0)
  {
    FirstMatchUnrolled(m);
    RuleKeywords(m);
    if Contains(m, "hello") || Contains(m, "hi") || Contains(m, "привет") || Contains(m, "здравствуйте") then Greeting
    else if Contains(m, "price") || Contains(m, "cost") || Contains(m, "цена") || Contains(m, "стоимость") || Contains(m, "сколько") then Pricing
    else if Contains(m, "brain") || Contains(m, "зарядка") || Contains(m, "мозг") then BrainCharge
    else if Contains(m, "resource") || Contains(m, "club") || Contains(m, "клуб") || Contains(m, "ресурс") then ResourcesClub
    else if Contains(m, "intensive") || Contains(m, "интенсив") || Contains(m, "papa") || Contains(m, "mama") || Contains(m, "папа") || Contains(m, "мама") then Intensive
    else if Contains(m, "reboot") || Contains(m, "перезагрузка") then Reboot
    else if Contains(m, "mentor") || Contains(m, "наставничество") then Mentorship
    else if Contains(m, "consult") || Contains(m, "консультац") || Contains(m, "записаться") || Contains(m, "book") then Consultation
    else if Contains(m, "altynai") || Contains(m, "алтынай") || Contains(m, "founder") || Contains(m, "основатель") then Founder
    else if Contains(m, "whatsapp") || Contains(m, "telegram") || Contains(m, "contact") || Contains(m, "связ") || Contains(m, "контакт") then Contacts
    else Help
  }

  // ----- the same chain as an ordered rule table -----

  datatype Rule = Rule(topic: Topic, keywords: seq<string>)

  /** The branches of the chain, in source order, as data. */
  const Rules: seq<Rule> := [
    Rule(Greeting, ["hello", "hi", "привет", "здравствуйте"]),
    Rule(Pricing, ["price", "cost", "цена", "стоимость", "сколько"]),
    Rule(BrainCharge, ["brain", "зарядка", "мозг"]),
    Rule(ResourcesClub, ["resource", "club", "клуб", "ресурс"]),
    Rule(Intensive, ["intensive", "интенсив", "papa", "mama", "папа", "мама"]),
    Rule(Reboot, ["reboot", "перезагрузка"]),
    Rule(Mentorship, ["mentor", "наставничество"]),
    Rule(Consultation, ["consult", "консультац", "записаться", "book"]),
    Rule(Founder, ["altynai", "алтынай", "founder", "основатель"]),
    Rule(Contacts, ["whatsapp", "telegram", "contact", "связ", "контакт"])
  ]

  /** Some keyword of the list occurs in the message. */
  predicate Mentions(m: string, keywords: seq<string>) {
    exists w :: w in keywords && Contains(m, w)
  }

  /** First-match over the rule table from rule `k` on; no match gives Help. */
  function FirstMatch(m: string, k: nat): Topic
    requires k <= |Rules|
    decreases |Rules| - k
  {
    if k == |Rules| then Help
    else if Mentions(m, Rules[k].keywords) then Rules[k].topic
    else FirstMatch(m, k + 1)
  }

  lemma FirstMatchUnrolled(m: string)
    ensures FirstMatch(m, 0) ==
      if Mentions(m, Rules[0].keywords) then Greeting
      else if Mentions(m, Rules[1].keywords) then Pricing
      else if Mentions(m, Rules[2].keywords) then BrainCharge
      else if Mentions(m, Rules[3].keywords) then ResourcesClub
      else if Mentions(m, Rules[4].keywords) then Intensive
      else if Mentions(m, Rules[5].keywords) then Reboot
      else if Mentions(m, Rules[6].keywords) then Mentorship
      else if Mentions(m, Rules[7].keywords) then Consultation
      else if Mentions(m, Rules[8].keywords) then Founder
      else if Mentions(m, Rules[9].keywords) then Contacts
      else Help
  {
    assert FirstMatch(m, 10) == Help;
    assert FirstMatch(m, 9) == if Mentions(m, Rules[9].keywords) then Contacts else Help;
    assert FirstMatch(m, 8) == if Mentions(m, Rules[8].keywords) then Founder else FirstMatch(m, 9);
    assert FirstMatch(m, 7) == if Mentions(m, Rules[7].keywords) then Consultation else FirstMatch(m, 8);
    assert FirstMatch(m, 6) == if Mentions(m, Rules[6].keywords) then Mentorship else FirstMatch(m, 7);
    assert FirstMatch(m, 5) == if Mentions(m, Rules[5].keywords) then Reboot else FirstMatch(m, 6);
    assert FirstMatch(m, 4) == if Mentions(m, Rules[4].keywords) then Intensive else FirstMatch(m, 5);
    assert FirstMatch(m, 3) == if Mentions(m, Rules[3].keywords) then ResourcesClub else FirstMatch(m, 4);
    assert FirstMatch(m, 2) == if Mentions(m, Rules[2].keywords) then BrainCharge else FirstMatch(m, 3);
    assert FirstMatch(m, 1) == if Mentions(m, Rules[1].keywords) then Pricing else FirstMatch(m, 2);
  }

  /** Each row of the table mentions exactly the keywords its branch of the chain tests. */
  lemma RuleKeywords(m: string)
    ensures Mentions(m, Rules[0].keywords) <==> Contains(m, "hello") || Contains(m, "hi") || Contains(m, "привет") || Contains(m, "здравствуйте")
    ensures Mentions(m, Rules[1].keywords) <==> Contains(m, "price") || Contains(m, "cost") || Contains(m, "цена") || Contains(m, "стоимость") || Contains(m, "сколько")
    ensures Mentions(m, Rules[2].keywords) <==> Contains(m, "brain") || Contains(m, "зарядка") || Contains(m, "мозг")
    ensures Mentions(m, Rules[3].keywords) <==> Contains(m, "resource") || Contains(m, "club") || Contains(m, "клуб") || Contains(m, "ресурс")
    ensures Mentions(m, Rules[4].keywords) <==> Contains(m, "intensive") || Contains(m, "интенсив") || Contains(m, "papa") || Contains(m, "mama") || Contains(m, "папа") || Contains(m, "мама")
    ensures Mentions(m, Rules[5].keywords) <==> Contains(m, "reboot") || Contains(m, "перезагрузка")
    ensures Mentions(m, Rules[6].keywords) <==> Contains(m, "mentor") || Contains(m, "наставничество")
    ensures Mentions(m, Rules[7].keywords) <==> Contains(m, "consult") || Contains(m, "консультац") || Contains(m, "записаться") || Contains(m, "book")
    ensures Mentions(m, Rules[8].keywords) <==> Contains(m, "altynai") || Contains(m, "алтынай") || Contains(m, "founder") || Contains(m, "основатель")
    ensures Mentions(m, Rules[9].keywords) <==> Contains(m, "whatsapp") || Contains(m, "telegram") || Contains(m, "contact") || Contains(m, "связ") || Contains(m, "контакт")
  {
    Rule0Keywords(m);
    Rule1Keywords(m);
    Rule2Keywords(m);
    Rule3Keywords(m);
    Rule4Keywords(m);
    Rule5Keywords(m);
    Rule6Keywords(m);
    Rule7Keywords(m);
    Rule8Keywords(m);
    Rule9Keywords(m);
  }

  lemma Rule0Keywords(m: string)
    ensures Mentions(m, Rules[0].keywords) <==> Contains(m, "hello") || Contains(m, "hi") || Contains(m, "привет") || Contains(m, "здравствуйте")
  {
    assert Rules[0].keywords == ["hello", "hi", "привет", "здравствуйте"];
  }

  lemma Rule1Keywords(m: string)
    ensures Mentions(m, Rules[1].keywords) <==> Contains(m, "price") || Contains(m, "cost") || Contains(m, "цена") || Contains(m, "стоимость") || Contains(m, "сколько")
  {
    assert Rules[1].keywords == ["price", "cost", "цена", "стоимость", "сколько"];
  }

  lemma Rule2Keywords(m: string)
    ensures Mentions(m, Rules[2].keywords) <==> Contains(m, "brain") || Contains(m, "зарядка") || Contains(m, "мозг")
  {
    assert Rules[2].keywords == ["brain", "зарядка", "мозг"];
  }

  lemma Rule3Keywords(m: string)
    ensures Mentions(m, Rules[3].keywords) <==> Contains(m, "resource") || Contains(m, "club") || Contains(m, "клуб") || Contains(m, "ресурс")
  {
    assert Rules[3].keywords == ["resource", "club", "клуб", "ресурс"];
  }

  lemma Rule4Keywords(m: string)
    ensures Mentions(m, Rules[4].keywords) <==> Contains(m, "intensive") || Contains(m, "интенсив") || Contains(m, "papa") || Contains(m, "mama") || Contains(m, "папа") || Contains(m, "мама")
  {
    assert Rules[4].keywords == ["intensive", "интенсив", "papa", "mama", "папа", "мама"];
  }

  lemma Rule5Keywords(m: string)
    ensures Mentions(m, Rules[5].keywords) <==> Contains(m, "reboot") || Contains(m, "перезагрузка")
  {
    assert Rules[5].keywords == ["reboot", "перезагрузка"];
  }

  lemma Rule6Keywords(m: string)
    ensures Mentions(m, Rules[6].keywords) <==> Contains(m, "mentor") || Contains(m, "наставничество")
  {
    assert Rules[6].keywords == ["mentor", "наставничество"];
  }

  lemma Rule7Keywords(m: string)
    ensures Mentions(m, Rules[7].keywords) <==> Contains(m, "consult") || Contains(m, "консультац") || Contains(m, "записаться") || Contains(m, "book")
  {
    assert Rules[7].keywords == ["consult", "консультац", "записаться", "book"];
  }

  lemma Rule8Keywords(m: string)
    ensures Mentions(m, Rules[8].keywords) <==> Contains(m, "altynai") || Contains(m, "алтынай") || Contains(m, "founder") || Contains(m, "основатель")
  {
    assert Rules[8].keywords == ["altynai", "алтынай", "founder", "основатель"];
  }

  lemma Rule9Keywords(m: string)
    ensures Mentions(m, Rules[9].keywords) <==> Contains(m, "whatsapp") || Contains(m, "telegram") || Contains(m, "contact") || Contains(m, "связ") || Contains(m, "контакт")
  {
    assert Rules[9].keywords == ["whatsapp", "telegram", "contact", "связ", "контакт"];
  }

  // ----- properties of the classifier -----

  lemma RuleTopicsDistinct()
    ensures forall i, j :: 0 <= i < j < |Rules| ==> Rules[i].topic != Rules[j].topic
    ensures forall i :: 0 <= i < |Rules| ==> Rules[i].topic != Help
  {
  }

  lemma {:induction false} FirstMatchResult(m: string, s: nat)
    requires s <= |Rules|
    ensures FirstMatch(m, s) == Help || exists j :: s <= j < |Rules| && FirstMatch(m, s) == Rules[j].topic
    decreases |Rules| - s
  {
    if s < |Rules| && !Mentions(m, Rules[s].keywords) {
      FirstMatchResult(m, s + 1);
    }
  }

  lemma {:induction false} FirstMatchFrom(m: string, s: nat, k: nat)
    requires s <= k < |Rules|
    ensures FirstMatch(m, s) == Rules[k].topic <==>
      Mentions(m, Rules[k].keywords) && forall j :: s <= j < k ==> !Mentions(m, Rules[j].keywords)
    decreases k - s
  {
    RuleTopicsDistinct();
    if s == k {
      FirstMatchResult(m, k + 1);
    } else {
      FirstMatchFrom(m, s + 1, k);
    }
  }

  /**
   * First-match priority: the message gets the reply of rule `k` exactly
   * when it mentions a keyword of rule `k` and no keyword of any earlier
   * rule; earlier keyword groups shadow later ones.
   */
  lemma ClassifyIsFirstMatch(m: string, k: nat)
    requires k < |Rules|
    ensures Classify(m) == Rules[k].topic <==>
      Mentions(m, Rules[k].keywords) && forall j :: 0 <= j < k ==> !Mentions(m, Rules[j].keywords)
  {
    FirstMatchFrom(m, 0, k);
  }

  lemma {:induction false} FirstMatchHelp(m: string, s: nat)
    requires s <= |Rules|
    ensures FirstMatch(m, s) == Help <==> forall j :: s <= j < |Rules| ==> !Mentions(m, Rules[j].keywords)
    decreases |Rules| - s
  {
    RuleTopicsDistinct();
    if s < |Rules| {
      FirstMatchHelp(m, s + 1);
    }
  }

  /** The help text is the answer exactly when no keyword of any rule occurs. */
  lemma ClassifyHelp(m: string)
    ensures Classify(m) == Help <==> forall j :: 0 <= j < |Rules| ==> !Mentions(m, Rules[j].keywords)
  {
    FirstMatchHelp(m, 0);
  }

  lemma LowerUpperChar(c: char)
    ensures LowerChar(UpperChar(c)) == LowerChar(c)
  {
  }

  /** The empty message mentions no keyword. */
  lemma EmptyIsHelp(message: Option<string>)
    requires OrEmpty(message) == ""
    ensures Classify(Lower(OrEmpty(message))) == Help
  {
    assert Lower("") == "";
  }

  /** "price" without a greeting keyword is classified as a price question. */
  lemma PriceIsPricing(m: string)
    requires !Mentions(m, Rules[0].keywords)
    requires Contains(m, "price")
    ensures Classify(m) == Pricing
  {
    Rule1Keywords(m);
    ClassifyIsFirstMatch(m, 1);
  }
}

/**
 * The replies of the chat endpoint: the branch chosen by `Chat.Classify`
 * picks a fixed text, and only the greeting and the founder text differ
 * between server.js and routes/chat.js.
 */
module ChatReply {
  import opened Text
  import opened Base
  import opened Chat

  // Only the greeting and the founder text name the brand; each puts it right after a fixed head.
  const GreetingHead: string := "Welcome to "
  const FounderHead: string := "Altynai Eshinbekova is the founder of "

  /** The reply text of each branch, verbatim. */
  function Reply(t: Topic, b: Brand): string
  {
    match t
    case Greeting => GreetingHead + BrandName(b) + "! I am your AI assistant. How can I help you today? You can ask about our programs, pricing, or book a free consultation."
    case Pricing => "Our programs:\n\n1. Brain Charge (entry level) - 1,000 KGS/RUB\n2. Resources Club - 5,000 KGS/month\n3. Intensive \"Mom & Dad - My 2 Wings\" - $300 / 26,300 KGS\n4. REBOOT course - $1,000\n5. Mentorship - contact our managers for pricing\n\nWould you like to book a free consultation to find the best program for you?"
    case BrainCharge => "Brain Charge is our entry-level program:\n- 21 days\n- 15 minutes per day\n- Starts at 6:00 AM (Kyrgyzstan time)\n- Price: 1,000 KGS/RUB\n\nIt is the simplest way to start your transformation journey!"
    case ResourcesClub => "Resources Club helps strengthen your inner state:\n- 4 weeks\n- 2 sessions with Altynai\n- 2 sessions with a curator\n- Focus: confidence, self-worth, inner freedom\n- Price: 5,000 KGS/month\n\nWant to join?"
    case Intensive => "The Intensive \"Mom & Dad - My 2 Wings\" works with ancestral roots:\n- 1 month, 10 lessons, 20 practices\n- 3 Zoom sessions\n- Topics: separation, breaking free from inherited patterns, restoring hierarchy\n- Price: $300 / 26,300 KGS"
    case Reboot => "REBOOT - Conscious Reality Management:\n- 8 weeks, 24 sessions\n- 20 lessons, 20 practices\n- 1 personal session with Altynai + 2 curator sessions\n- Topics: values, state management, relationships, finances\n- Price: $1,000"
    case Mentorship => "Mentorship (University of Self-Knowledge) is our premium program:\n- Field reading, emotions & subconscious blocks\n- Quantum field work\n- 30 NLP practices\n- Constellation fundamentals\n- Live practice with curators\n\nContact our managers for pricing!"
    case Consultation => "To book a free consultation, click the \"Book Consultation\" button on our website, or message us on WhatsApp/Telegram. Entry to individual work is only after a free consultation. We look forward to working with you!"
    case Founder => FounderHead + BrandName(b) + ":\n- Specialist in subconscious and quantum field work\n- NLP Master\n- Master of deep analysis sessions\n\nShe works deeply, ecologically, and delivers real results. She personally accompanies clients to their goals."
    case Contacts => "You can reach us via:\n- WhatsApp: Click the WhatsApp button on our website\n- Telegram: Click the Telegram button\n- Or fill out the contact form and we will reach out to you!\n\nWe are happy to help you start your transformation journey."
    case Help => "Thank you for your message! I can help you with:\n\n- Program information and pricing\n- Booking a free consultation\n- Learning about our founder Altynai\n- Understanding how we work\n\nJust ask me anything, or click \"Book Consultation\" to get started!"
  }

  /**
   * The handler: `(message || '').toLowerCase()` is classified and the
   * branch's text is sent back. A missing message reads as the empty string.
   */
  function Respond(message: Option<string>, b: Brand): string
  {
    Reply(Classify(Lower(OrEmpty(message))), b)
  }

  // ----- properties of the replies -----

  /** Matching is case-insensitive: lower-casing the message first changes nothing. */
  lemma RespondIgnoresCase(m: string, b: Brand)
    ensures Respond(Some(Lower(m)), b) == Respond(Some(m), b)
  {
    LowerIdempotent(m);
  }

  /**
   * Upper-casing a message of ASCII and basic Cyrillic characters changes
   * nothing either; outside those the two case mappings need not undo each
   * other.
   */
  lemma RespondIgnoresUpperCase(m: string, b: Brand)
    requires forall k :: 0 <= k < |m| ==> CaseTabled(m[k])
    ensures Respond(Some(Upper(m)), b) == Respond(Some(m), b)
  {
    forall k | 0 <= k < |m| ensures Lower(Upper(m))[k] == Lower(m)[k] {
      LowerUpperChar(m[k]);
    }
    assert Lower(Upper(m)) == Lower(m);
  }

  /** A missing or empty message gets the help text. */
  lemma MissingMessageGetsHelp(b: Brand)
    ensures Respond(None, b) == Reply(Help, b)
    ensures Respond(Some(""), b) == Reply(Help, b)
  {
    EmptyIsHelp(None);
    EmptyIsHelp(Some(""));
  }

  /**
   * The greeting test is a raw substring test for "hi": any message with
   * those two letters next to each other, in either case, is greeted, even
   * when it is a question about prices ("this", "which", "machine").
   */
  lemma AnyHiIsGreeting(before: string, hi: string, after: string, b: Brand)
    requires Lower(hi) == "hi"
    ensures Respond(Some(before + hi + after), b) == Reply(Greeting, b)
  {
    LowerConcat(before + hi, after);
    LowerConcat(before, hi);
    ContainsInfix(Lower(before), "hi", Lower(after));
  }

  lemma ThisIsGreeting(b: Brand)
    ensures Respond(Some("this costs what?"), b) == Reply(Greeting, b)
  {
    assert Lower("hi") == "hi";
    assert "this costs what?" == "t" + "hi" + "s costs what?";
    AnyHiIsGreeting("t", "hi", "s costs what?", b);
  }

  /**
   * A price question that is not greeted gets the price list, whatever
   * program it names: "price" shadows "brain", "club", "reboot" and the rest.
   */
  lemma PricingShadowsPrograms(m: string, b: Brand)
    requires !Mentions(Lower(m), Rules[0].keywords)
    requires Contains(Lower(m), "price")
    ensures Respond(Some(m), b) == Reply(Pricing, b)
  {
    PriceIsPricing(Lower(m));
  }

  /**
   * server.js and routes/chat.js answer every message from the same branch;
   * their texts differ only in the greeting and the founder branch, which
   * name the brand.
   */
  lemma BrandOnlyDifference(t: Topic)
    ensures Reply(t, Kvantum) == Reply(t, Quantum) <==> t != Greeting && t != Founder
  {
    if t == Greeting {
      GreetingNamesBrand();
    } else if t == Founder {
      FounderNamesBrand();
    } else {
      BrandNeutral(t);
    }
  }

  lemma GreetingNamesBrand()
    ensures Reply(Greeting, Kvantum) != Reply(Greeting, Quantum)
  {
    assert Reply(Greeting, Kvantum)[|GreetingHead|] == 'K';
    assert Reply(Greeting, Quantum)[|GreetingHead|] == 'Q';
  }

  lemma FounderNamesBrand()
    ensures Reply(Founder, Kvantum) != Reply(Founder, Quantum)
  {
    assert Reply(Founder, Kvantum)[|FounderHead|] == 'K';
    assert Reply(Founder, Quantum)[|FounderHead|] == 'Q';
  }

  lemma BrandNeutral(t: Topic)
    requires t != Greeting && t != Founder
    ensures Reply(t, Kvantum) == Reply(t, Quantum)
  {
    match t
    case Pricing =>
    case BrainCharge =>
    case ResourcesClub =>
    case Intensive =>
    case Reboot =>
    case Mentorship =>
    case Consultation =>
    case Contacts =>
    case Help =>
  }
}
