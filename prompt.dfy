/** The messages that `analyze_documents` (app.py) sends to the provider. */
module Prompt {
  import opened Wrappers
  import opened PyStr

  /** The system message. */
  const SystemInstruction: string :=
    "You are an assistant who is expert in evaluating the CV according to job description."

  const CvHeader: string := "CV:\n"
  const JdHeader: string := "\n\nJob Description:\n"
  const JdTrailer: string := "\n\n"

  /** `n` spaces: the indentation the triple-quoted literal carries. */
  function Indent(n: nat): (r: string)
    ensures |r| == n && forall k :: 0 <= k < n ==> r[k] == ' '
  {
    seq(n, _ => ' ')
  }

  /** One line of the instructions literal: its indentation and its words
      (the text between single spaces, so a doubled space shows as an empty
      word). */
  datatype Line = Line(indent: nat, words: seq<string>)

  /** The fixed evaluation instructions that follow the two texts, line by
      line and word by word as the triple-quoted literal spells them
      (indentation, the blank line, doubled spaces and spelling included).
      Nothing in the pipeline reads them back. */
  const RubricLines: seq<Line> := [
      Line(48, ["Task:", "Evaluate", "the", "candidate's", "CV", "against", "the", "Job", "Description", "to", "determine", "alignment", "between", "their", "qualifications,", "skills,", "and", "experiences", "with", "the", "job", "requirements."]),
      Line(0, []),
      Line(48, ["Matching", "Guidelines:"]),
      Line(52, ["Field", "Relevancy:"]),
      Line(56, ["Ensure", "the", "candidate's", "background", "is", "relevant", "to", "the", "Job", "Title."]),
      Line(48, ["Review", "Process:"]),
      Line(52, ["Review", "CV:", "Identify", "relevant", "experiences,", "skills,", "and", "qualifications."]),
      Line(52, ["Match", "Key", "Responsibilities:", "Compare", "candidate's", "past", "experiences", "with", "the", "job's", "responsibilities."]),
      Line(52, ["Evaluate", "Skills:", "Match", "skills", "on", "the", "CV", "with", "those", "in", "the", "Job", "Description,", "focusing", "on", "Skills", "alignment."]),
      Line(52, ["Assess", "Qualifications:", "Check", "educational", "background,", "certifications,", "and", "additional", "qualifications", "against", "job", "requirements", "but", "the", "candidate", "must", "not", "be", "over", "qualified."]),
      Line(48, ["Scoring:"]),
      Line(52, ["-", "Scale:", "1", "to", "10"]),
      Line(52, ["-", "Weightage:"]),
      Line(56, ["-", "Skills:", "40%"]),
      Line(56, ["-", "Responsibilities", "Alignment:", "40%"]),
      Line(56, ["-", "Qualifications:", "10%"]),
      Line(56, ["-", "Others:", "10%"]),
      Line(48, ["Scoring", "Rubric:"]),
      Line(52, ["Poor", "Match", "(1-2):", "10", "to", "20", "precent", "alignment", "between", "CV", "and", "Job", "Description."]),
      Line(52, ["Moderate", "Match", "(3-4):", "30", "to", "40", "precent", "alignment", "between", "CV", "and", "Job", "Description."]),
      Line(52, ["Good", "Match", "(5-7):", "", "50", "to", "70", "precent", "alignment", "between", "CV", "and", "Job", "Description."]),
      Line(52, ["Excellent", "Match", "(8-9):", "", "80", "to", "90", "precent", "alignment", "between", "CV", "and", "Job", "Description."]),
      Line(48, ["Response", "Format:"]),
      Line(52, ["-", "Score:", "<score>"]),
      Line(52, ["-", "Explanation:", "<Explanation", "of", "the", "score", "up", "to", "4", "lines>"])
    ]

  /** Lays lines out as the literal does: each one starts on a new line. */
  function Render(lines: seq<Line>): (r: string)
  {
    if lines == [] then "" else "\n" + Indent(lines[0].indent) + JoinSpace(lines[0].words) + Render(lines[1..])
  }

  const Rubric: string := Render(RubricLines)

  /** The user message around any instructions: both texts embedded verbatim
      between fixed headers, then the instructions. */
  function Compose(cvText: string, jdText: string, instructions: string): (r: string)
    ensures |r| == |CvHeader| + |cvText| + |JdHeader| + |jdText| + |JdTrailer| + |instructions|
  {
    CvHeader + cvText + JdHeader + jdText + JdTrailer + instructions
  }

  /** The user message `analyze_documents` sends. */
  function BuildPrompt(cvText: string, jdText: string): (r: string)
  {
    Compose(cvText, jdText, Rubric)
  }

  /** Reads the two texts back out of a user message composed around
      `instructions`, given the length of the CV text; `None` when the message
      does not have that shape. */
  function Split(p: string, cvLength: nat, instructions: string): (r: Option<(string, string)>)
  {
    var jdStart := |CvHeader| + cvLength + |JdHeader|;
    var jdEnd := |p| - |JdTrailer| - |instructions|;
    if jdStart <= jdEnd
      && p[..|CvHeader|] == CvHeader
      && p[|CvHeader| + cvLength..jdStart] == JdHeader
      && p[jdEnd..] == JdTrailer + instructions
    then Some((p[|CvHeader|..|CvHeader| + cvLength], p[jdStart..jdEnd]))
    else None
  }

  /** Reading back inverts composing: the texts come out exactly as they went in. */
  lemma ComposeRoundTrip(cvText: string, jdText: string, instructions: string)
    ensures Split(Compose(cvText, jdText, instructions), |cvText|, instructions) == Some((cvText, jdText))
  {
    var p := Compose(cvText, jdText, instructions);
    var a := |CvHeader| + |cvText|;
    var b := a + |JdHeader|;
    var c := b + |jdText|;
    assert p[..|CvHeader|] == CvHeader;
    assert p[|CvHeader|..a] == cvText;
    assert p[a..b] == JdHeader;
    assert p[b..c] == jdText;
    assert p[c..] == JdTrailer + instructions;
  }

  /** Composing inverts reading back: a message that splits is the message
      composed from the two texts it splits into. */
  lemma ComposeSplitSound(p: string, cvLength: nat, instructions: string, cvText: string, jdText: string)
    requires Split(p, cvLength, instructions) == Some((cvText, jdText))
    ensures Compose(cvText, jdText, instructions) == p
  {
    var a := |CvHeader| + cvLength;
    var b := a + |JdHeader|;
    var c := |p| - |JdTrailer| - |instructions|;
    assert p == p[..|CvHeader|] + p[|CvHeader|..a] + p[a..b] + p[b..c] + p[c..];
  }

  /** The user message `analyze_documents` sends embeds the CV text and then
      the job-description text verbatim: splitting it at the CV's length gives
      both back, so it depends on exactly these two texts. */
  lemma PromptRoundTrip(cvText: string, jdText: string)
    ensures Split(BuildPrompt(cvText, jdText), |cvText|, Rubric) == Some((cvText, jdText))
  {
    ComposeRoundTrip(cvText, jdText, Rubric);
  }

  /** Equal messages with equal CV lengths come from equal texts. */
  lemma ComposeDeterminesTexts(cv1: string, jd1: string, cv2: string, jd2: string, instructions: string)
    requires Compose(cv1, jd1, instructions) == Compose(cv2, jd2, instructions) && |cv1| == |cv2|
    ensures cv1 == cv2 && jd1 == jd2
  {
    ComposeRoundTrip(cv1, jd1, instructions);
    ComposeRoundTrip(cv2, jd2, instructions);
  }

  /** Without the CV's length the texts are not recoverable: a CV that itself
      contains the job-description header gives the same message as a shorter
      CV followed by a longer job description. */
  lemma ComposeIsAmbiguous(instructions: string)
    ensures Compose("a" + JdHeader + "b", "c", instructions)
         == Compose("a", "b" + JdHeader + "c", instructions)
  {
    assert CvHeader + ("a" + JdHeader + "b") + JdHeader + "c"
        == CvHeader + "a" + JdHeader + ("b" + JdHeader + "c");
  }
}
