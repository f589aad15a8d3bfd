/** The lab generator (`generateTacticalLabs`): expands a handful of phase
    descriptors into a sequence of lab records by index arithmetic and string
    templates. The templates' fixed text is carried verbatim; only the pieces
    substituted into them are of interest to the proofs. */
module Generator {
  import opened Wrappers
  import opened Types
  import opened Text
  import opened Partition

  /** `phase.tools[0]` inside a template literal: an empty tool list reads
      `undefined`, which the template prints as the word "undefined". */
  function FirstTool(tools: seq<string>): (t: string)
    ensures |tools| > 0 ==> t == tools[0]
    ensures |tools| == 0 ==> t == "undefined"
  {
    if |tools| > 0 then tools[0] else "undefined"
  }

  /** `labNumber`: the 1-based position, zero-padded to four digits. */
  function LabNumber(i: nat): (s: string)
    ensures |s| >= 4
    ensures i + 1 < 10000 ==> |s| == 4
    ensures forall k :: 0 <= k < |s| ==> IsDigitOf(s[k], 10)
    ensures FromRadix(s, 10) == i + 1
  {
    PaddedDecimal(i + 1);
    PadStart(Dec(i + 1), 4, '0')
  }

  /** A number printed in decimal and padded with zeros to four places is
      all digits, at least four long, exactly four below 10000, and still
      reads as the number. */
  lemma PaddedDecimal(n: nat)
    ensures var s := PadStart(Dec(n), 4, '0');
            && |s| >= 4
            && (n < 10000 ==> |s| == 4)
            && (forall k :: 0 <= k < |s| ==> IsDigitOf(s[k], 10))
            && FromRadix(s, 10) == n
  {
    var d := Dec(n);
    var s := PadStart(d, 4, '0');
    assert s == Repeat('0', |s| - |d|) + d;
    LeadingZeros(|s| - |d|, d, 10);
    FromToRadix(n, 10);
    if n < 10000 {
      DecWidth(n);
    }
  }

  // The fixed text of the templates. Each constant holds the literal pieces
  // of one template, in order, between the values substituted into it.

  /** Step 1 of a defensive lab, in English. */
  const ShieldStep1: (string, string, string) :=
    ("Phase Shield: Configure ",
     " rules on node 0x",
     ".")

  /** Step 2 of a defensive lab, in English. */
  const ShieldStep2: (string, string, string) :=
    ("Analysis: Detect the ",
     " breach attempt in ",
     ".")

  /** Step 3 of a defensive lab, in English. */
  const ShieldStep3: (string, string) :=
    ("Remediation: Deploy the hardening patch version ",
     ".0.safe.")

  /** Step 4 of a defensive lab, in English. */
  const ShieldStep4: (string, string, string) :=
    ("Integrity: Verify the system hash {SKY_",
     "_SECURE_",
     "} matches the baseline.")

  /** Step 1 of an offensive lab, in English. */
  const BreachStep1: (string, string, string) :=
    ("Phase Recon: Execute ",
     " against target node 0x",
     ".")

  /** Step 2 of an offensive lab, in English. */
  const BreachStep2: (string, string, string) :=
    ("Analysis: Identify the ",
     " security flaw in the ",
     " configuration.")

  /** Step 3 of an offensive lab, in English. */
  const BreachStep3: (string, string) :=
    ("Exploitation: Deploy the tactical payload version ",
     ".0.alpha.")

  /** Step 4 of an offensive lab, in English. */
  const BreachStep4: (string, string, string) :=
    ("Confirmation: Retrieve the unique signature {SKY_",
     "_SIG_",
     "} from the target environment.")

  /** Step 1 of a defensive lab, in Bengali. */
  const ShieldStepBn1: (string, string) :=
    (" ব্যবহার করে নোড (node) 0x",
     " এ সিকিউরিটি রুল কনফিগার করুন।")

  /** Step 2 of a defensive lab, in Bengali. */
  const ShieldStepBn2: (string, string) :=
    (" এ ",
     " ব্রিচ অ্যাটেম্পট (breach attempt) শনাক্ত করুন।")

  /** Step 3 of a defensive lab, in Bengali. */
  const ShieldStepBn3: (string, string) :=
    ("হার্ডেনিং প্যাচ (hardening patch) ভার্সন ",
     ".0.safe ডেপ্লয় করুন।")

  /** Step 4 of a defensive lab, in Bengali. */
  const ShieldStepBn4: (string, string, string) :=
    ("সিস্টেম হাশ (system hash) {SKY_",
     "_SECURE_",
     "} বেসলাইনের সাথে যাচাই করুন।")

  /** Step 1 of an offensive lab, in Bengali. */
  const BreachStepBn1: (string, string) :=
    (" ব্যবহার করে টার্গেট নোড (target node) 0x",
     " এর উপর ফেজ রিকন শুরু করুন।")

  /** Step 2 of an offensive lab, in Bengali. */
  const BreachStepBn2: (string, string) :=
    (" কনফিগারেশনে ",
     " সিকিউরিটি ফ্ল শনাক্ত করুন।")

  /** Step 3 of an offensive lab, in Bengali. */
  const BreachStepBn3: (string, string) :=
    ("ট্যাকটিক্যাল পেলোড (tactical payload) ভার্সন ",
     ".0.alpha ডেপ্লয় করুন।")

  /** Step 4 of an offensive lab, in Bengali. */
  const BreachStepBn4: (string, string, string) :=
    ("টার্গেট এনভায়রনমেন্ট থেকে ইউনিক সিগনেচার {SKY_",
     "_SIG_",
     "} সংগ্রহ করুন।")

  /** The provisioning script of an offensive lab, around its substitutions. */
  const RedSetupText: (string, string, string, string, string, string) :=
    ("[RED_TEAM_PROTOCOL_44]:\n" + "1. Provisioning Offensive Kali Instance on Subnet 10.10.",
     ".0/24.\n" + "2. Initializing Exploitation Framework: ",
     ".\n" + "3. Deploying Vulnerable Target Node: ",
     " @ 10.10.",
     ".",
     ".\n" + "4. Tunneling Command & Control (C2) through encrypted proxy...\n" + "5. READY. Target identity confirmed.")

  /** The provisioning script of a defensive lab, around its substitutions. */
  const BlueSetupText: (string, string, string, string, string, string) :=
    ("[BLUE_TEAM_PROTOCOL_SECURE]:\n" + "1. Provisioning Defensive SIEM Node (Splunk/ELK) on Subnet 192.168.",
     ".0/24.\n" + "2. Mounting Defense Arsenal: ",
     " Monitoring Agents.\n" + "3. Deploying Hardened Gateway: ",
     " @ 192.168.",
     ".",
     ".\n" + "4. Initializing Real-time Packet Inspection and Log Aggregation...\n" + "5. READY. Perimeter secure. Monitoring for anomalies...")

  /** The English mission statement; the middle pair is the defensive and the offensive wording. */
  const ObjectiveText: (string, string, string, string, string, string, string) :=
    ("[",
     "] ",
     "Defensive hardening",
     "Offensive exploitation",
     " of ",
     ". Mission: Secure 0x",
     " using tactical methods.")

  /** The Bengali mission statement; the middle pair is the defensive and the offensive wording. */
  const BnObjectiveText: (string, string, string, string, string, string, string) :=
    ("[",
     "] ",
     " এর ",
     "ডিফেন্সিভ হার্ডেনিং",
     "অফেন্সিভ এক্সপ্লয়টেশন",
     "। মিশন: ০x",
     " নোডটি সুরক্ষিত করা।")

  /** The defensive command around its substitutions. */
  const ShieldCommandText: (string, string, string) :=
    ("sky-shield --monitor --node 10.0.",
     ".",
     " --policy-id P-")

  /** The offensive command around its substitutions. */
  const BreachCommandText: (string, string, string) :=
    ("sky-breach --exploit ",
     " --target-id ",
     " --payload auto")

  /** The quiz question around the phase name. */
  const QuestionText: (string, string) :=
    ("What is the primary objective in this ",
     " scenario?")

  /** The English instruction steps (four of them). */
  function Instructions(prefix: string, phase: Phase, tier: Tier, subId: nat, i: nat, isDefensive: bool): (r: seq<string>)
    ensures |r| == 4
  {
    if isDefensive then [
      ShieldStep1.0 + FirstTool(phase.tools) + ShieldStep1.1 + Hex(i + 100) + ShieldStep1.2,
      ShieldStep2.0 + Lower(tier.Label()) + ShieldStep2.1 + phase.name + ShieldStep2.2,
      ShieldStep3.0 + Dec(subId) + ShieldStep3.1,
      ShieldStep4.0 + prefix + ShieldStep4.1 + Dec(i) + ShieldStep4.2
    ]
    else [
      BreachStep1.0 + FirstTool(phase.tools) + BreachStep1.1 + Hex(i + 100) + BreachStep1.2,
      BreachStep2.0 + Lower(tier.Label()) + BreachStep2.1 + phase.name + BreachStep2.2,
      BreachStep3.0 + Dec(subId) + BreachStep3.1,
      BreachStep4.0 + prefix + BreachStep4.1 + Dec(i) + BreachStep4.2
    ]
  }

  /** The Bengali instruction steps (four of them). */
  function BnInstructions(prefix: string, phase: Phase, tier: Tier, subId: nat, i: nat, isDefensive: bool): (r: seq<string>)
    ensures |r| == 4
  {
    if isDefensive then [
      FirstTool(phase.tools) + ShieldStepBn1.0 + Hex(i + 100) + ShieldStepBn1.1,
      phase.name + ShieldStepBn2.0 + Lower(tier.Label()) + ShieldStepBn2.1,
      ShieldStepBn3.0 + Dec(subId) + ShieldStepBn3.1,
      ShieldStepBn4.0 + prefix + ShieldStepBn4.1 + Dec(i) + ShieldStepBn4.2
    ]
    else [
      FirstTool(phase.tools) + BreachStepBn1.0 + Hex(i + 100) + BreachStepBn1.1,
      phase.name + BreachStepBn2.0 + Lower(tier.Label()) + BreachStepBn2.1,
      BreachStepBn3.0 + Dec(subId) + BreachStepBn3.1,
      BreachStepBn4.0 + prefix + BreachStepBn4.1 + Dec(i) + BreachStepBn4.2
    ]
  }

  /** The defensive monitoring command, addressed by phase and sub-id. */
  function ShieldCommand(phaseIndex: nat, subId: nat, i: nat): string {
    ShieldCommandText.0 + Dec(phaseIndex) + ShieldCommandText.1 + Dec(subId) + ShieldCommandText.2 + Dec(i)
  }

  /** The offensive exploit command, addressed by sector and position. */
  function BreachCommand(prefix: string, i: nat): string {
    BreachCommandText.0 + Lower(prefix) + BreachCommandText.1 + Dec(i) + BreachCommandText.2
  }

  /** The provisioning narrative of an offensive lab. */
  function RedSetup(phase: Phase, phaseIndex: nat, subId: nat): string {
    RedSetupText.0 + Dec(phaseIndex) + RedSetupText.1 + Join(phase.tools, ", ") + RedSetupText.2 + phase.os + RedSetupText.3 + Dec(phaseIndex) + RedSetupText.4 + Dec(subId) + RedSetupText.5
  }

  /** The provisioning narrative of a defensive lab. */
  function BlueSetup(phase: Phase, phaseIndex: nat, subId: nat): string {
    BlueSetupText.0 + Dec(phaseIndex) + BlueSetupText.1 + Join(phase.tools, ", ") + BlueSetupText.2 + phase.os + BlueSetupText.3 + Dec(phaseIndex) + BlueSetupText.4 + Dec(subId) + BlueSetupText.5
  }

  const QuizOptions: seq<string> := ["Neutralize the threat", "Execute the payload", "Monitor traffic", "Update the kernel"]

  /** The single quiz question: the first option is right for a defensive lab,
      the second for an offensive one. */
  function Quiz(phase: Phase, isDefensive: bool): (q: QuizQuestion)
    ensures |q.options| == 4
    ensures 0 <= q.correctAnswer < |q.options|
    ensures q.options[q.correctAnswer] == if isDefensive then "Neutralize the threat" else "Execute the payload"
  {
    QuizQuestion(
      QuestionText.0 + phase.name + QuestionText.1,
      QuizOptions,
      if isDefensive then 0 else 1)
  }

  /** The English mission statement. */
  function Objective(phase: Phase, tier: Tier, i: nat, isDefensive: bool): string {
    ObjectiveText.0 + tier.Label() + ObjectiveText.1 + (if isDefensive then ObjectiveText.2 else ObjectiveText.3) + ObjectiveText.4 + phase.name + ObjectiveText.5 + Hex(5000 + i) + ObjectiveText.6
  }

  /** The Bengali mission statement. */
  function BnObjective(phase: Phase, tier: Tier, i: nat, isDefensive: bool): string {
    BnObjectiveText.0 + tier.Label() + BnObjectiveText.1 + phase.name + BnObjectiveText.2 + (if isDefensive then BnObjectiveText.3 else BnObjectiveText.4) + BnObjectiveText.5 + Hex(5000 + i) + BnObjectiveText.6
  }

  /** The lab's display name. */
  function LabName(prefix: string, labNumber: string, phaseName: string, subId: nat): string {
    prefix + "-" + labNumber + ": " + phaseName + " (Mod " + Dec(subId) + ")"
  }

  /** The phase that owns position i. */
  function PhaseAt(phases: seq<Phase>, labCount: nat, i: nat): Phase
    requires |phases| > 0 && i < labCount
  {
    phases[PhaseIndex(i, labCount, |phases|)]
  }

  /** A lab record has the shape every generated lab has: four instruction
      steps in each language, and one quiz question whose answer index names
      one of its four options. */
  predicate WellFormed(lab: Lab) {
    && |lab.instructions| == 4
    && lab.bnInstructions.Some? && |lab.bnInstructions.value| == 4
    && |lab.quiz| == 1
    && |lab.quiz[0].options| == 4
    && 0 <= lab.quiz[0].correctAnswer < |lab.quiz[0].options|
  }

  /** The record generated for position i. */
  function LabAt(prefix: string, phases: seq<Phase>, labCount: nat, isDefensive: bool, i: nat): (lab: Lab)
    requires |phases| > 0 && i < labCount
    ensures WellFormed(lab)
    ensures lab.quiz[0].correctAnswer == if isDefensive then 0 else 1
    ensures lab.hackerTechnique == PhaseAt(phases, labCount, i).technique
    ensures lab.bnHackerTechnique == Some(PhaseAt(phases, labCount, i).bnTechnique)
    ensures lab.targetOs == Some(PhaseAt(phases, labCount, i).os)
    ensures lab.requiredTools == Some(PhaseAt(phases, labCount, i).tools)
    ensures lab.rule == None
    ensures lab.name == LabName(prefix, LabNumber(i), PhaseAt(phases, labCount, i).name, SubId(i, labCount, |phases|))
  {
    var phaseIndex := PhaseIndex(i, labCount, |phases|);
    var phase := phases[phaseIndex];
    var subId := SubId(i, labCount, |phases|);
    var tier := TierOf(i, labCount);
    var labNumber := LabNumber(i);
    Lab(
      name := LabName(prefix, labNumber, phase.name, subId),
      objective := Objective(phase, tier, i, isDefensive),
      bnObjective := Some(BnObjective(phase, tier, i, isDefensive)),
      hackerTechnique := phase.technique,
      bnHackerTechnique := Some(phase.bnTechnique),
      command := Some(if isDefensive then ShieldCommand(phaseIndex, subId, i) else BreachCommand(prefix, i)),
      rule := None,
      instructions := Instructions(prefix, phase, tier, subId, i, isDefensive),
      bnInstructions := Some(BnInstructions(prefix, phase, tier, subId, i, isDefensive)),
      quiz := [Quiz(phase, isDefensive)],
      targetOs := Some(phase.os),
      requiredTools := Some(phase.tools),
      setupWalkthrough := Some(if isDefensive then BlueSetup(phase, phaseIndex, subId) else RedSetup(phase, phaseIndex, subId)))
  }

  /** The generator on the inputs it accepts: one record per position, each
      well formed, each carrying its phase's technique, platform and tools and
      the quiz answer of its team. */
  function Generate(prefix: string, phases: seq<Phase>, labCount: nat, isDefensive: bool): (labs: seq<Lab>)
    requires labCount > 0 ==> |phases| > 0
    ensures |labs| == labCount
    ensures forall i :: 0 <= i < |labs| ==>
              WellFormed(labs[i]) && labs[i].quiz[0].correctAnswer == if isDefensive then 0 else 1
    ensures forall i :: 0 <= i < |labs| ==> labs[i].hackerTechnique == PhaseAt(phases, labCount, i).technique
    ensures forall i :: 0 <= i < |labs| ==> labs[i].requiredTools == Some(PhaseAt(phases, labCount, i).tools)
  {
    seq(labCount, i requires 0 <= i < labCount => LabAt(prefix, phases, labCount, isDefensive, i))
  }

  /** What `generateTacticalLabs` raises: with labs to make and no phases, the
      clamped index is -1 and reading `.tools` of the missing phase throws. */
  datatype GenError = MissingPhase

  /** `generateTacticalLabs(sectorPrefix, phases, labCount, isDefensive)`. */
  function GenerateTacticalLabs(prefix: string, phases: seq<Phase>, labCount: nat, isDefensive: bool): (r: Result<seq<Lab>, GenError>)
    ensures r.Failure? <==> labCount > 0 && |phases| == 0
    ensures r.Success? ==> |r.value| == labCount
    ensures labCount == 0 ==> r == Success([])
    ensures r.Success? ==> r.value == Generate(prefix, phases, labCount, isDefensive)
  {
    if labCount > 0 && |phases| == 0 then Failure(MissingPhase)
    else Success(Generate(prefix, phases, labCount, isDefensive))
  }

  /** The lab name is the sector prefix, the zero-padded 1-based position, the
      phase name and the sub-id, in that order. */
  lemma NameStructure(prefix: string, phases: seq<Phase>, labCount: nat, isDefensive: bool, i: nat)
    requires |phases| > 0 && i < labCount
    ensures Generate(prefix, phases, labCount, isDefensive)[i].name
         == prefix + "-" + LabNumber(i) + ": " + PhaseAt(phases, labCount, i).name
            + " (Mod " + Dec(SubId(i, labCount, |phases|)) + ")"
  {
  }

  /** The characters of s before the first occurrence of c. */
  function TakeUntil(s: string, c: char): (r: string)
    ensures |r| <= |s| && r == s[..|r|]
  {
    if |s| == 0 || s[0] == c then [] else [s[0]] + TakeUntil(s[1..], c)
  }

  lemma {:induction false} TakeUntilMarker(a: string, rest: string, c: char)
    requires c !in a
    ensures TakeUntil(a + [c] + rest, c) == a
  {
    if |a| > 0 {
      assert (a + [c] + rest)[1..] == a[1..] + [c] + rest;
      TakeUntilMarker(a[1..], rest, c);
    }
  }

  /** The lab number field of a name: what follows the sector prefix and its
      dash, up to the first colon. */
  function NumberField(name: string, prefixLength: nat): string {
    if prefixLength + 1 <= |name| then TakeUntil(name[prefixLength + 1..], ':') else ""
  }

  /** A lab name carries its number field intact when that field holds no colon. */
  lemma NumberFieldOf(prefix: string, labNumber: string, phaseName: string, subId: nat)
    requires ':' !in labNumber
    ensures NumberField(LabName(prefix, labNumber, phaseName, subId), |prefix|) == labNumber
  {
    var rest := " " + phaseName + " (Mod " + Dec(subId) + ")";
    var n := LabName(prefix, labNumber, phaseName, subId);
    var tail := labNumber + [':'] + rest;
    assert n == (prefix + "-") + tail;
    assert n[|prefix| + 1..] == tail;
    TakeUntilMarker(labNumber, rest, ':');
  }

  /** Reading the number field back out of a lab name gives the padded lab
      number, so the name determines the position. */
  lemma NameDecodes(prefix: string, i: nat, phaseName: string, subId: nat)
    ensures NumberField(LabName(prefix, LabNumber(i), phaseName, subId), |prefix|) == LabNumber(i)
  {
    var a := LabNumber(i);
    forall t | 0 <= t < |a| ensures a[t] != ':' {
      assert IsDigitOf(a[t], 10);
    }
    NumberFieldOf(prefix, a, phaseName, subId);
  }

  lemma LabNumberInjective(i: nat, j: nat)
    requires i != j
    ensures LabNumber(i) != LabNumber(j)
  {
    assert FromRadix(LabNumber(i), 10) != FromRadix(LabNumber(j), 10);
  }

  /** Distinct positions give distinct names, whatever the phase names and
      sub-ids. */
  lemma LabNameInjective(prefix: string, i: nat, j: nat, nameI: string, nameJ: string, subI: nat, subJ: nat)
    requires i != j
    ensures LabName(prefix, LabNumber(i), nameI, subI) != LabName(prefix, LabNumber(j), nameJ, subJ)
  {
    NameDecodes(prefix, i, nameI, subI);
    NameDecodes(prefix, j, nameJ, subJ);
    LabNumberInjective(i, j);
  }

  /** Within one generated sequence the lab names are pairwise distinct. */
  lemma NamesDistinct(prefix: string, phases: seq<Phase>, labCount: nat, isDefensive: bool, i: nat, j: nat)
    requires |phases| > 0 && i < labCount && j < labCount && i != j
    ensures Generate(prefix, phases, labCount, isDefensive)[i].name
         != Generate(prefix, phases, labCount, isDefensive)[j].name
  {
    LabNameInjective(prefix, i, j, PhaseAt(phases, labCount, i).name, PhaseAt(phases, labCount, j).name,
                     SubId(i, labCount, |phases|), SubId(j, labCount, |phases|));
  }

  /** The command tells the team apart: defensive labs monitor with
      `sky-shield`, offensive ones attack with `sky-breach`. */
  lemma CommandPrefix(prefix: string, phaseIndex: nat, subId: nat, i: nat)
    ensures |ShieldCommand(phaseIndex, subId, i)| >= 10 && ShieldCommand(phaseIndex, subId, i)[..10] == "sky-shield"
    ensures |BreachCommand(prefix, i)| >= 10 && BreachCommand(prefix, i)[..10] == "sky-breach"
  {
    var s := ShieldCommand(phaseIndex, subId, i);
    var b := BreachCommand(prefix, i);
    assert s[..10] == ShieldCommandText.0[..10];
    assert b[..10] == BreachCommandText.0[..10];
  }

  lemma CommandRevealsTeam(prefix: string, phases: seq<Phase>, labCount: nat, isDefensive: bool, i: nat)
    requires |phases| > 0 && i < labCount
    ensures Generate(prefix, phases, labCount, isDefensive)[i].command.Some?
    ensures var c := Generate(prefix, phases, labCount, isDefensive)[i].command.value;
            |c| >= 10 && (c[..10] == "sky-shield" <==> isDefensive)
            && (!isDefensive ==> c[..10] == "sky-breach")
  {
    CommandPrefix(prefix, PhaseIndex(i, labCount, |phases|), SubId(i, labCount, |phases|), i);
  }

  /** Labs in the same phase block carry the same technique, platform and tools. */
  lemma SamePhaseSameFields(prefix: string, phases: seq<Phase>, labCount: nat, isDefensive: bool, i: nat, j: nat)
    requires |phases| > 0 && i < labCount && j < labCount
    requires PhaseIndex(i, labCount, |phases|) == PhaseIndex(j, labCount, |phases|)
    ensures var labs := Generate(prefix, phases, labCount, isDefensive);
            labs[i].hackerTechnique == labs[j].hackerTechnique
            && labs[i].targetOs == labs[j].targetOs
            && labs[i].requiredTools == labs[j].requiredTools
  {
  }

  lemma PrefixOfAppend(a: string, b: string)
    ensures a <= a + b
  {
    assert (a + b)[..|a|] == a;
  }

  /** The first line of each team's provisioning narrative. */
  const RedHeader: string := "[RED_TEAM_PROTOCOL_44]:\n"
  const BlueHeader: string := "[BLUE_TEAM_PROTOCOL_SECURE]:\n"

  /** The offensive provisioning narrative opens with the red protocol header. */
  lemma RedSetupHeader(phase: Phase, phaseIndex: nat, subId: nat)
    ensures |RedSetup(phase, phaseIndex, subId)| >= 2
    ensures RedSetup(phase, phaseIndex, subId)[0] == '[' && RedSetup(phase, phaseIndex, subId)[1] == 'R'
    ensures RedHeader <= RedSetup(phase, phaseIndex, subId)
  {
    var t := RedSetupText;
    var h := RedHeader;
    assert h[..2] == "[R";
    PrefixOfAppend(h, t.0[|h|..]);
    var a := t.0 + Dec(phaseIndex);
    var b := a + t.1;
    var c := b + Join(phase.tools, ", ");
    var d := c + t.2;
    var e := d + phase.os;
    var f := e + t.3;
    var g := f + Dec(phaseIndex);
    var k := g + t.4;
    var l := k + Dec(subId);
    PrefixOfAppend(t.0, Dec(phaseIndex));
    PrefixOfAppend(a, t.1);
    PrefixOfAppend(b, Join(phase.tools, ", "));
    PrefixOfAppend(c, t.2);
    PrefixOfAppend(d, phase.os);
    PrefixOfAppend(e, t.3);
    PrefixOfAppend(f, Dec(phaseIndex));
    PrefixOfAppend(g, t.4);
    PrefixOfAppend(k, Dec(subId));
    PrefixOfAppend(l, t.5);
    assert RedSetup(phase, phaseIndex, subId) == l + t.5;
    assert RedSetup(phase, phaseIndex, subId)[..2] == "[R";
  }

  /** The defensive provisioning narrative opens with the blue protocol header. */
  lemma BlueSetupHeader(phase: Phase, phaseIndex: nat, subId: nat)
    ensures |BlueSetup(phase, phaseIndex, subId)| >= 2
    ensures BlueSetup(phase, phaseIndex, subId)[0] == '[' && BlueSetup(phase, phaseIndex, subId)[1] == 'B'
    ensures BlueHeader <= BlueSetup(phase, phaseIndex, subId)
  {
    var t := BlueSetupText;
    var h := BlueHeader;
    assert h[..2] == "[B";
    PrefixOfAppend(h, t.0[|h|..]);
    var a := t.0 + Dec(phaseIndex);
    var b := a + t.1;
    var c := b + Join(phase.tools, ", ");
    var d := c + t.2;
    var e := d + phase.os;
    var f := e + t.3;
    var g := f + Dec(phaseIndex);
    var k := g + t.4;
    var l := k + Dec(subId);
    PrefixOfAppend(t.0, Dec(phaseIndex));
    PrefixOfAppend(a, t.1);
    PrefixOfAppend(b, Join(phase.tools, ", "));
    PrefixOfAppend(c, t.2);
    PrefixOfAppend(d, phase.os);
    PrefixOfAppend(e, t.3);
    PrefixOfAppend(f, Dec(phaseIndex));
    PrefixOfAppend(g, t.4);
    PrefixOfAppend(k, Dec(subId));
    PrefixOfAppend(l, t.5);
    assert BlueSetup(phase, phaseIndex, subId) == l + t.5;
    assert BlueSetup(phase, phaseIndex, subId)[..2] == "[B";
  }

  /** A generated lab's setup walkthrough is its team's narrative. */
  lemma LabSetup(prefix: string, phases: seq<Phase>, labCount: nat, isDefensive: bool, i: nat)
    requires |phases| > 0 && i < labCount
    ensures var phase, p, sub := PhaseAt(phases, labCount, i), PhaseIndex(i, labCount, |phases|), SubId(i, labCount, |phases|);
            Generate(prefix, phases, labCount, isDefensive)[i].setupWalkthrough
            == Some(if isDefensive then BlueSetup(phase, p, sub) else RedSetup(phase, p, sub))
  {
    assert Generate(prefix, phases, labCount, isDefensive)[i] == LabAt(prefix, phases, labCount, isDefensive, i);
  }

  /** The provisioning narrative tells the team apart: the red protocol
      header for offensive labs, the blue one for defensive labs. */
  lemma SetupRevealsTeam(prefix: string, phases: seq<Phase>, labCount: nat, isDefensive: bool, i: nat)
    requires |phases| > 0 && i < labCount
    ensures Generate(prefix, phases, labCount, isDefensive)[i].setupWalkthrough.Some?
    ensures var s := Generate(prefix, phases, labCount, isDefensive)[i].setupWalkthrough.value;
            |s| >= 2 && s[0] == '[' && (s[1] == 'B' <==> isDefensive)
            && (if isDefensive then BlueHeader <= s else RedHeader <= s)
  {
    var phase, p, sub := PhaseAt(phases, labCount, i), PhaseIndex(i, labCount, |phases|), SubId(i, labCount, |phases|);
    LabSetup(prefix, phases, labCount, isDefensive, i);
    RedSetupHeader(phase, p, sub);
    BlueSetupHeader(phase, p, sub);
  }

  /** The English objective opens with the tier in brackets. */
  lemma ObjectiveHead(phase: Phase, tier: Tier, i: nat, isDefensive: bool)
    ensures var o := Objective(phase, tier, i, isDefensive);
            var head := "[" + tier.Label() + "]";
            |head| <= |o| && o[..|head|] == head
  {
    var head := "[" + tier.Label() + "]";
    var a := ObjectiveText.0 + tier.Label() + ObjectiveText.1;
    assert ObjectiveText.0 == "[" && ObjectiveText.1 == "] ";
    assert a == head + " ";
    PrefixOfAppend(head, " ");
    var b := a + (if isDefensive then ObjectiveText.2 else ObjectiveText.3);
    var c := b + ObjectiveText.4;
    var d := c + phase.name;
    var e := d + ObjectiveText.5;
    var f := e + Hex(5000 + i);
    PrefixOfAppend(a, if isDefensive then ObjectiveText.2 else ObjectiveText.3);
    PrefixOfAppend(b, ObjectiveText.4);
    PrefixOfAppend(c, phase.name);
    PrefixOfAppend(d, ObjectiveText.5);
    PrefixOfAppend(e, Hex(5000 + i));
    PrefixOfAppend(f, ObjectiveText.6);
    assert Objective(phase, tier, i, isDefensive) == f + ObjectiveText.6;
  }

  /** The objective opens with the lab's tier in brackets. */
  lemma ObjectiveNamesTier(prefix: string, phases: seq<Phase>, labCount: nat, isDefensive: bool, i: nat)
    requires |phases| > 0 && i < labCount
    ensures var o := Generate(prefix, phases, labCount, isDefensive)[i].objective;
            var head := "[" + TierOf(i, labCount).Label() + "]";
            |head| <= |o| && o[..|head|] == head
  {
    ObjectiveHead(PhaseAt(phases, labCount, i), TierOf(i, labCount), i, isDefensive);
  }
}
