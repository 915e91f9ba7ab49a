/**
 * The menu dispatcher: the four informational menu labels of the bot's reply
 * keyboard, the static catalogues behind them, and the replies rendered from
 * those catalogues.
 */
module Menu {
  import opened Wrappers
  import opened Text

  const UneconUrl: string := "https://unecon.ru"

  // The reply-keyboard captions. A message matches a label only when its
  // stripped text equals the caption exactly.
  const DirectionsLabel: string := "\U{1F4DA} Направления"
  const FaqLabel: string := "\U{2753} FAQ по поступлению"
  const ContactsLabel: string := "\U{1F4DE} Контакты приёмной комиссии"
  const LinksLabel: string := "\U{1F517} Ссылки на сайт"
  /** The feedback caption; it belongs to the conversation machine, not to the dispatcher. */
  const FeedbackLabel: string := "\U{2709}\U{FE0F} Обратная связь"

  /** The programmes of the humanities faculty, in the order they are listed. */
  const Directions: seq<string> := [
    "Лингвистика (Каф. романо-германской филологии и перевода)",
    "Перевод и переводоведение (Каф. английской филологии и перевода)",
    "Английский язык (Каф. английского языка №1/№2)",
    "Восточные языки",
    "Реклама и связи с общественностью",
    "Международные отношения и политология",
    "Регионоведение (зарубежное регионоведение)",
    "Теория и практика массмедиа"
  ]

  datatype QA = QA(question: string, answer: string)

  /** The admissions FAQ, in the order it is shown. */
  const Faq: seq<QA> := [
    QA("Как подать документы?",
       "Пакет документов: заявление, паспорт, результаты ЕГЭ/аттестат. Сроки и список — на странице Приёмной комиссии."),
    QA("Какие вступительные испытания?",
       "Для большинства направлений — результаты ЕГЭ. Некоторые направления могут иметь дополнительные испытания."),
    QA("Есть ли общежитие?",
       "Да, университет предоставляет общежитие. Подробности на сайте СПбГЭУ.")
  ]

  const ContactsText: string :=
    "Приёмная комиссия СПбГЭУ\n"
    + "Тел.: +7 (812) 458-97-58\n"
    + "E-mail: abitura@unecon.ru\n"
    + "Адрес: наб. канала Грибоедова, д. 30-32, лит. А, каб. 1039\n\n"
    + "Официальный сайт: " + UneconUrl

  const LinksText: string :=
    "Официальный сайт: " + UneconUrl + "\n"
    + "Страница факультета: https://unecon.ru/fakultety/gumanitarnyj-fakultet/\n"
    + "Приёмная комиссия: https://unecon.ru/education/\n"
    + "Личный кабинет абитуриента: https://priem.unecon.ru"

  const DirectionsHeader: string := "Направления гуманитарного факультета:\n\n"
  const FaqHeader: string := "FAQ — часто задаваемые вопросы:\n\n"

  /** Line `i` of the directions reply: the 1-based number, a dot, the programme. */
  function DirectionLine(i: nat, d: string): string
  {
    NatToDecimal(i) + ". " + d + "\n"
  }

  /** The numbered lines of the directions reply, in catalogue order. */
  function DirectionLines(ds: seq<string>): seq<string>
  {
    seq(|ds|, k requires 0 <= k < |ds| => DirectionLine(k + 1, ds[k]))
  }

  /** The directions reply: the header, then line `i. d` for each programme `d`, numbered from 1. */
  function DirectionsReply(ds: seq<string>): string
  {
    DirectionsHeader + Concat(DirectionLines(ds))
  }

  /** The block the FAQ reply shows for one question: the question in Markdown bold, the answer, a blank line. */
  function FaqBlock(qa: QA): string
  {
    "• *" + qa.question + "*\n" + qa.answer + "\n\n"
  }

  /** The blocks of the FAQ reply, one per question, in catalogue order. */
  function FaqBlocks(faq: seq<QA>): seq<string>
  {
    seq(|faq|, k requires 0 <= k < |faq| => FaqBlock(faq[k]))
  }

  /** The FAQ reply: the header, then one block per question in catalogue order. */
  function FaqReply(faq: seq<QA>): string
  {
    FaqHeader + Concat(FaqBlocks(faq))
  }

  /** The static content behind the informational menu, fixed when the process starts. */
  datatype Catalogue = Catalogue(directions: seq<string>, faq: seq<QA>, contacts: string, links: string)

  /** The bot's own catalogue. */
  const BotCatalogue: Catalogue := Catalogue(Directions, Faq, ContactsText, LinksText)

  predicate IsInfoLabel(text: string)
  {
    text == DirectionsLabel || text == FaqLabel || text == ContactsLabel || text == LinksLabel
  }

  /**
   * The dispatcher: the reply for one of the four informational labels, or
   * None when `text` is not one of them (the feedback label included).
   */
  function Dispatch(cat: Catalogue, text: string): Option<string>
  {
    if text == DirectionsLabel then Some(DirectionsReply(cat.directions))
    else if text == FaqLabel then Some(FaqReply(cat.faq))
    else if text == ContactsLabel then Some(cat.contacts)
    else if text == LinksLabel then Some(cat.links)
    else None
  }

  /** The five captions are pairwise distinct: at most one test of the dispatch chain matches a text. */
  lemma LabelsDistinct()
    ensures !IsInfoLabel(FeedbackLabel)
    ensures DirectionsLabel != FaqLabel && DirectionsLabel != ContactsLabel && DirectionsLabel != LinksLabel
    ensures FaqLabel != ContactsLabel && FaqLabel != LinksLabel && ContactsLabel != LinksLabel
  {
    assert FeedbackLabel[0] != DirectionsLabel[0];
    assert FeedbackLabel[0] != FaqLabel[0];
    assert FeedbackLabel[0] != ContactsLabel[0];
    assert FeedbackLabel[0] != LinksLabel[0];
    assert DirectionsLabel[0] != FaqLabel[0] && DirectionsLabel[0] != ContactsLabel[0];
    assert DirectionsLabel[0] != LinksLabel[0] && FaqLabel[0] != ContactsLabel[0];
    assert FaqLabel[0] != LinksLabel[0] && ContactsLabel[0] != LinksLabel[0];
  }

  /** Every caption is its own stripped form, so a tap on the button matches. */
  lemma LabelTrimmed(caption: string)
    requires IsInfoLabel(caption) || caption == FeedbackLabel
    ensures Trim(caption) == caption
  {
    if caption == DirectionsLabel {
      assert caption[0] == '\U{1F4DA}' && caption[|caption| - 1] == 'я';
    } else if caption == FaqLabel {
      assert caption[0] == '\U{2753}' && caption[|caption| - 1] == 'ю';
    } else if caption == ContactsLabel {
      assert caption[0] == '\U{1F4DE}' && caption[|caption| - 1] == 'и';
    } else if caption == LinksLabel {
      assert caption[0] == '\U{1F517}' && caption[|caption| - 1] == 'т';
    } else {
      assert caption[0] == '\U{2709}' && caption[|caption| - 1] == 'ь';
    }
    TrimUnchanged(caption);
  }

  /** Builds the directions reply as the bot does: start from the header and append one numbered line per programme. */
  method RenderDirections(ds: seq<string>) returns (txt: string)
    ensures txt == DirectionsReply(ds)
  {
    txt := DirectionsHeader;
    var i := 0;
    while i < |ds|
      invariant 0 <= i <= |ds|
      invariant txt == DirectionsHeader + Concat(DirectionLines(ds[..i]))
    {
      assert DirectionLines(ds[..i + 1])[..i] == DirectionLines(ds[..i]);
      txt := txt + DirectionLine(i + 1, ds[i]);
      i := i + 1;
    }
    assert ds[..i] == ds;
  }

  /** Builds the FAQ reply as the bot does: start from the header and append one block per question. */
  method RenderFaq(faq: seq<QA>) returns (out: string)
    ensures out == FaqReply(faq)
  {
    out := FaqHeader;
    var i := 0;
    while i < |faq|
      invariant 0 <= i <= |faq|
      invariant out == FaqHeader + Concat(FaqBlocks(faq[..i]))
    {
      assert FaqBlocks(faq[..i + 1])[..i] == FaqBlocks(faq[..i]);
      out := out + FaqBlock(faq[i]);
      i := i + 1;
    }
    assert faq[..i] == faq;
  }

  /**
   * Line `k + 1` of the directions body sits at its place: after the header and
   * the `k` lines before it, the reply reads "{k+1}. {ds[k]}\n".
   */
  lemma DirectionsLineAt(ds: seq<string>, k: nat)
    requires k < |ds|
    ensures var lines := DirectionLines(ds);
            var start := |DirectionsHeader| + Offset(lines, k);
            start + |DirectionLine(k + 1, ds[k])| <= |DirectionsReply(ds)|
            && DirectionsReply(ds)[start..start + |DirectionLine(k + 1, ds[k])|] == DirectionLine(k + 1, ds[k])
  {
    var lines := DirectionLines(ds);
    PieceAt(lines, k);
    var start := Offset(lines, k);
    var body := Concat(lines);
    assert DirectionsReply(ds)[|DirectionsHeader| + start..|DirectionsHeader| + start + |lines[k]|]
        == body[start..start + |lines[k]|];
  }

  /** Block `k` of the FAQ reply is the block of question `k`, after the header and the blocks before it. */
  lemma FaqBlockAt(faq: seq<QA>, k: nat)
    requires k < |faq|
    ensures var blocks := FaqBlocks(faq);
            var start := |FaqHeader| + Offset(blocks, k);
            start + |FaqBlock(faq[k])| <= |FaqReply(faq)|
            && FaqReply(faq)[start..start + |FaqBlock(faq[k])|] == FaqBlock(faq[k])
  {
    var blocks := FaqBlocks(faq);
    PieceAt(blocks, k);
    var start := Offset(blocks, k);
    var body := Concat(blocks);
    assert FaqReply(faq)[|FaqHeader| + start..|FaqHeader| + start + |blocks[k]|]
        == body[start..start + |blocks[k]|];
  }

  predicate NoNewline(d: string)
  {
    '\n' !in d
  }

  /** When no programme name contains a line break, the body of the directions reply has exactly one line per programme. */
  lemma {:induction false} DirectionsLineCount(ds: seq<string>)
    requires forall k :: 0 <= k < |ds| ==> NoNewline(ds[k])
    ensures Count(Concat(DirectionLines(ds)), '\n') == |ds|
    decreases |ds|
  {
    if ds != [] {
      var n := |ds| - 1;
      var d := ds[n];
      assert DirectionLines(ds)[..n] == DirectionLines(ds[..n]);
      DirectionsLineCount(ds[..n]);
      var line := DirectionLine(n + 1, d);
      CountAppend(Concat(DirectionLines(ds[..n])), line, '\n');
      CountAbsent(NatToDecimal(n + 1) + ". " + d, '\n');
      CountAppend(NatToDecimal(n + 1) + ". " + d, "\n", '\n');
      assert Count("\n", '\n') == 1;
    }
  }

  /** The directions reply starts with the header and the line of the first programme. */
  lemma FirstDirectionLine(ds: seq<string>)
    requires |ds| > 0
    ensures DirectionsHeader + DirectionLine(1, ds[0]) <= DirectionsReply(ds)
  {
    var lines := DirectionLines(ds);
    ConcatAt(lines, 0);
    assert lines[..0] == [];
  }

  /** The first line is numbered "1". */
  lemma FirstLineNumber(d: string)
    ensures DirectionLine(1, d) == "1. " + d + "\n"
  {
    assert NatToDecimal(1) == "1";
  }

  /**
   * The reply to the directions button starts with the header and then the line
   * "1. Лингвистика (Каф. романо-германской филологии и перевода)".
   */
  lemma DirectionsReplyFirstLine()
    ensures DirectionsHeader + DirectionLine(1, "Лингвистика (Каф. романо-германской филологии и перевода)")
            <= DirectionsReply(BotCatalogue.directions)
  {
    assert Directions[0] == "Лингвистика (Каф. романо-германской филологии и перевода)";
    FirstDirectionLine(Directions);
  }
}
