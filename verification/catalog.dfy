/** The authored catalog (`INITIAL_MODULES`): fourteen sectors, seven per
    team, each a module wrapping a generated lab sequence. */
module Catalog {
  import opened Types
  import opened Generator

  // The phase descriptors of each sector, as authored.
  const WebRedPhases: seq<Phase> := [
    Phase("SQL Injection",
          "Union-based exfiltration.",
          "ইউনিয়ন-বেসড ডাটা এক্সফিল্ট্রেশন।",
          ["SQLMap"],
          "Ubuntu/MySQL"),
    Phase("XSS Mastery",
          "Stored/DOM-based session hijacking.",
          "স্টোর্ড/ডম-বেসড সেশন হাইজ্যাকিং।",
          ["BeEF"],
          "Debian/Apache")
  ]

  const WebBluePhases: seq<Phase> := [
    Phase("SQLi Defense",
          "Implementing prepared statements.",
          "প্রিপেয়ারড স্টেটমেন্ট ইমপ্লিমেন্ট করা।",
          ["WAF", "ModSecurity"],
          "Linux Gateway"),
    Phase("XSS Sanitization",
          "Enforcing strict CSP policies.",
          "কঠোর CSP পলিসি প্রয়োগ করা।",
          ["CSP-Gen"],
          "Web Node")
  ]

  const NetRedPhases: seq<Phase> := [
    Phase("Network Recon",
          "Stealth port scanning.",
          "স্টিলথ পোর্ট স্ক্যানিং।",
          ["Nmap"],
          "Kali Linux"),
    Phase("AD Exploitation",
          "Kerberoasting and Relay attacks.",
          "কার্বারোস্টিং এবং রিলে অ্যাটাক।",
          ["Mimikatz"],
          "Windows Server")
  ]

  const NetBluePhases: seq<Phase> := [
    Phase("IDS Monitoring",
          "Analyzing traffic for scan patterns.",
          "স্ক্যান প্যাটার্ন শনাক্ত করতে ট্রাফিক অ্যানালাইসিস করা।",
          ["Snort"],
          "Sensor Node"),
    Phase("Hardening AD",
          "Disabling LLMNR/NBT-NS.",
          "LLMNR/NBT-NS নিষ্ক্রিয় করা।",
          ["GPO"],
          "Domain Controller")
  ]

  const PassRedPhases: seq<Phase> := [
    Phase("Online Bruteforce",
          "Credential cracking via live services.",
          "লাইভ সার্ভিসের মাধ্যমে ক্রেডেনশিয়াল ক্র্যাকিং।",
          ["Hydra"],
          "SSH Target"),
    Phase("Dictionary Attacks",
          "Using wordlists like rockyou.txt.",
          "রকইউ (rockyou.txt) এর মতো ওয়ার্ডলিস্ট ব্যবহার করা।",
          ["John"],
          "Offline Lab")
  ]

  const PassBluePhases: seq<Phase> := [
    Phase("MFA Enforcement",
          "Enforcing 2FA/FIDO2 challenges.",
          "2FA/FIDO2 চ্যালেঞ্জ প্রয়োগ করা।",
          ["Duo"],
          "Auth Server"),
    Phase("Hashing Audit",
          "Migrating to Argon2id/Bcrypt.",
          "Argon2id/Bcrypt এ মাইগ্রেট করা।",
          ["Hash-Audit"],
          "DB Node")
  ]

  const CloudRedPhases: seq<Phase> := [
    Phase("S3 Exfiltration",
          "Finding unauthenticated buckets.",
          "আনঅথেন্টিকেটেড বাকেট খুঁজে বের করা।",
          ["S3Scanner"],
          "AWS Admin"),
    Phase("IMDS Hijacking",
          "Exploiting SSRF for IAM keys.",
          "IAM কী-এর জন্য SSRF এক্সপ্লয়েট করা।",
          ["Pacu"],
          "EC2 Node")
  ]

  const CloudBluePhases: seq<Phase> := [
    Phase("Bucket Locking",
          "Implementing IAM Block Public Access.",
          "IAM ব্লক পাবলিক এক্সেস ইমপ্লিমেন্ট করা।",
          ["AWS-Config"],
          "Cloud Console"),
    Phase("IMDSv2 Enforcement",
          "Requiring signed metadata tokens.",
          "সাইনড মেটাডাটা টোকেন বাধ্যতামূলক করা।",
          ["CloudTrail"],
          "Policy Engine")
  ]

  const SocialRedPhases: seq<Phase> := [
    Phase("Spear Phishing",
          "Crafting highly targeted malicious emails to steal corporate credentials.",
          "কর্পোরেট ক্রেডেনশিয়াল চুরি করার জন্য অত্যন্ত লক্ষ্যযুক্ত (targeted) ম্যালিশিয়াস ইমেইল তৈরি করা।",
          ["Social Engineer Toolkit (SET)", "Gophish"],
          "Attacker VM"),
    Phase("Vishing (Voice)",
          "Impersonating IT support over voice calls to bypass MFA.",
          "MFA বাইপাস করার জন্য ভয়েস কলের মাধ্যমে IT সাপোর্টের ছদ্মবেশ ধারণ করা।",
          ["Asterisk", "Deepfake Audio"],
          "VoIP Server"),
    Phase("Baiting",
          "Leaving infected USB drives in common areas to gain physical entry.",
          "শারীরিক প্রবেশাধিকার পাওয়ার জন্য সাধারণ এলাকায় ইনফেক্টেড USB ড্রাইভ ফেলে রাখা।",
          ["Rubber Ducky", "Malicious HID"],
          "Physical Lab")
  ]

  const SocialBluePhases: seq<Phase> := [
    Phase("Email Security",
          "Implementing SPF, DKIM, and DMARC to prevent spoofing and domain misuse.",
          "স্পুফিং এবং ডোমেইন অপব্যবহার রোধ করতে SPF, DKIM এবং DMARC ইমপ্লিমেন্ট করা।",
          ["Proofpoint", "DMARC Analyzer"],
          "Mail Gateway"),
    Phase("Phishing Simulation",
          "Running internal simulations to identify and train high-risk employees.",
          "ঝুঁকিপূর্ণ কর্মীদের শনাক্ত ও প্রশিক্ষণ দেওয়ার জন্য ইন্টারনাল ফিশিং সিমুলেশন চালানো।",
          ["KnowBe4", "PhishMe"],
          "Security Console"),
    Phase("Identity Verification",
          "Enforcing strict challenge-response protocols for all helpdesk requests.",
          "সব হেল্পডেস্ক রিকোয়েস্টের জন্য কঠোর চ্যালেঞ্জ-রেসপন্স প্রোটোকল প্রয়োগ করা।",
          ["Okta", "ServiceNow Security"],
          "Auth Hub")
  ]

  const AiRedPhases: seq<Phase> := [
    Phase("Prompt Injection",
          "Bypassing system guardrails via adversarial prompting.",
          "অ্যাডভারসারিয়াল প্রম্পটিংয়ের মাধ্যমে সিস্টেম গার্ডরেইল বাইপাস করা।",
          ["PyRIT", "Garak"],
          "PyTorch Node"),
    Phase("Indirect Injection",
          "Using external data sources (websites, files) to hijack LLM logic.",
          "এক্সটারনাল ডাটা সোর্স (ওয়েবসাইট, ফাইল) ব্যবহার করে LLM লজিক হাইজ্যাক করা।",
          ["Burp Suite", "Python"],
          "Web Crawler"),
    Phase("Data Exfiltration",
          "Retrieving PII/secrets from model training sets via extraction attacks.",
          "এক্সট্রাকশন অ্যাটাকের মাধ্যমে মডেল ট্রেনিং সেট থেকে PII বা সিক্রেট সংগ্রহ করা।",
          ["PromptMap", "Python"],
          "Jupyter Cluster"),
    Phase("Membership Inference",
          "Determining if specific data was used in the model training set.",
          "নির্দিষ্ট ডাটা মডেল ট্রেনিং সেটে ব্যবহৃত হয়েছিল কিনা তা নির্ধারণ করা।",
          ["ART", "Scikit-Learn"],
          "Analytics Node"),
    Phase("Model Poisoning",
          "Manipulating model behavior via malicious fine-tuning data.",
          "ম্যালিশিয়াস ফাইন-টিউনিং ডাটার মাধ্যমে মডেলের আচরণ পরিবর্তন করা।",
          ["HuggingFace-CLI", "ART"],
          "GPU Farm"),
    Phase("Adversarial Evasion",
          "Crafting inputs that cause the model to output incorrect or unsafe results.",
          "এমন ইনপুট তৈরি করা যা মডেলকে ভুল বা অনিরাপদ ফলাফল দিতে বাধ্য করে।",
          ["Foolbox", "Torch"],
          "Inference Server")
  ]

  const AiBluePhases: seq<Phase> := [
    Phase("Prompt Shielding",
          "Implementing input filtering and semantic analysis for safety.",
          "নিরাপত্তার জন্য ইনপুট ফিল্টারিং এবং সিম্যান্টিক অ্যানালাইসিস প্রয়োগ করা।",
          ["NeMo Guardrails", "Llama-Guard"],
          "Inference API"),
    Phase("Context Hardening",
          "Using system prompt isolation and few-shot defensive patterns.",
          "সিস্টেম প্রম্পট আইসোলেশন এবং ফিউ-শট ডিফেন্সিভ প্যাটার্ন ব্যবহার করা।",
          ["LangChain", "OpenAI-Evals"],
          "API Gateway"),
    Phase("RAG Security",
          "Securing vector databases and preventing retrieval manipulation.",
          "ভেক্টর ডাটাবেস সুরক্ষিত করা এবং রিট্রিভাল ম্যানিপুলেশন প্রতিরোধ করা।",
          ["Pinecone-SEC", "LangChain"],
          "Vector Storage"),
    Phase("Privacy Budgeting",
          "Applying differential privacy to prevent data extraction attacks.",
          "ডাটা এক্সট্রাকশন অ্যাটাক প্রতিরোধে ডিফারেনশিয়াল প্রাইভেসি প্রয়োগ করা।",
          ["Opacus", "PySyft"],
          "Training Node"),
    Phase("Robustness Audit",
          "Evaluating model integrity against adversarial drift and jailbreaks.",
          "অ্যাডভারসারিয়াল ড্রিফট এবং জেলব্রেকের বিরুদ্ধে মডেল ইন্টিগ্রিটি মূল্যায়ন করা।",
          ["Azure AI Content Safety", "MLflow"],
          "Compliance Node"),
    Phase("Sanitization Layers",
          "Implementing output checking and content moderation filters.",
          "আউটপুট চেকিং এবং কন্টেন্ট মডারেশন ফিল্টার ইমপ্লিমেন্ট করা।",
          ["Perspective API", "CleanLab"],
          "Filter Node")
  ]

  const MobRedPhases: seq<Phase> := [
    Phase("APK Decompilation",
          "Analyzing bytecode for hardcoded secrets and logic flaws.",
          "হার্ডকোডেড সিক্রেট এবং লজিক ফ্ল খোঁজার জন্য বাইটকোড অ্যানালাইসিস করা।",
          ["JADX", "Apktool"],
          "Android SDK"),
    Phase("Insecure Storage",
          "Extracting sensitive data from local SQLite databases and shared prefs.",
          "লোকাল SQLite ডাটাবেস এবং শেয়ারড প্রেফারেন্স থেকে সেনসিটিভ ডাটা সংগ্রহ করা।",
          ["Drozer", "ADB"],
          "Rooted Android"),
    Phase("SSL Pinning Bypass",
          "Intercepting HTTPS traffic using dynamic instrumentation.",
          "ডায়নামিক ইন্সট্রুমেন্টেশন ব্যবহার করে HTTPS ট্রাফিক ইন্টারসেপ্ট করা।",
          ["Frida", "Burp Suite"],
          "iOS/Android"),
    Phase("IPC Exploitation",
          "Manipulating intents and activities to bypass authentication.",
          "অথেন্টিকেশন বাইপাস করার জন্য ইনটেন্ট এবং অ্যাক্টিভিটি ম্যানিপুলেট করা।",
          ["Drozer", "Python"],
          "Android Runtime")
  ]

  const MobBluePhases: seq<Phase> := [
    Phase("Code Obfuscation",
          "Renaming classes and methods to hinder reverse engineering.",
          "রিভার্স ইঞ্জিনিয়ারিং কঠিন করার জন্য ক্লাস এবং মেথড রিনেম করা।",
          ["ProGuard", "DexGuard"],
          "Build Server"),
    Phase("Anti-Tampering",
          "Implementing integrity checks and root/jailbreak detection.",
          "ইন্টিগ্রিটি চেক এবং রুট/জেলব্রেক ডিটেকশন ইমপ্লিমেন্ট করা।",
          ["RASP", "SafetyNet"],
          "Mobile Runtime"),
    Phase("Secure Storage",
          "Encrypting local assets using hardware-backed KeyStore.",
          "হার্ডওয়্যার-ব্যাকড KeyStore ব্যবহার করে লোকাল অ্যাসেট এনক্রিপ্ট করা।",
          ["Android KeyStore", "Keychain"],
          "Secure Enclave"),
    Phase("Biometric Auth",
          "Enforcing strong biometric challenges for sensitive actions.",
          "সেনসিটিভ অ্যাকশনের জন্য শক্তিশালী বায়োমেট্রিক চ্যালেঞ্জ বাধ্যতামূলক করা।",
          ["BiometricPrompt", "LocalAuthentication"],
          "Mobile OS")
  ]

  /** Every lab of the module is well formed and its quiz answer is the one of
      the module's team: offensive labs for the Red Team, defensive ones for
      the Blue Team. */
  predicate TeamConsistent(m: Module) {
    forall k :: 0 <= k < |m.labs| ==>
      WellFormed(m.labs[k]) && m.labs[k].quiz[0].correctAnswer == if m.team == RedTeam then 1 else 0
  }

  /** A sector module whose labs come from the generator. */
  function Sector(id: string, title: string, category: string, team: TeamType, difficulty: Difficulty,
                  credits: int, prefix: string, phases: seq<Phase>, labCount: nat, isDefensive: bool): (m: Module)
    requires |phases| > 0
    ensures |m.labs| == labCount
    ensures (isDefensive <==> team == BlueTeam) ==> TeamConsistent(m)
  {
    Module(id, title, category, team, difficulty, credits, Generate(prefix, phases, labCount, isDefensive))
  }

  /** `INITIAL_MODULES`, in the authored order. */
  function InitialModules(): (ms: seq<Module>)
    ensures |ms| == 14
    ensures forall a :: 0 <= a < |ms| ==> ms[a].credits == 10 * |ms[a].labs|
  {
    [
      Sector("red-web", "Web Pentesting", "Web Exploitation", RedTeam, Advanced, 10000, "RED-WEB", WebRedPhases, 1000, false),
      Sector("red-net", "Network Pentesting", "Infrastructure", RedTeam, Advanced, 5000, "RED-NET", NetRedPhases, 500, false),
      Sector("red-pass", "Password Attacks", "Auth Sploits", RedTeam, Intermediate, 1000, "RED-PASS", PassRedPhases, 100, false),
      Sector("red-cloud", "Cloud Breaching", "Cloud Security", RedTeam, Advanced, 3000, "RED-CL", CloudRedPhases, 300, false),
      Sector("red-social", "Social Engineering", "Human Hacking", RedTeam, Advanced, 5000, "RED-SE", SocialRedPhases, 500, false),
      Sector("red-ai", "AI/LLM Hacking", "AI Security", RedTeam, Advanced, 4000, "RED-AI", AiRedPhases, 400, false),
      Sector("red-mob", "Mobile Pentesting", "Mobile Security", RedTeam, Advanced, 4000, "RED-MOB", MobRedPhases, 400, false),
      Sector("blue-web", "Web Defense", "Application Security", BlueTeam, Advanced, 10000, "BLUE-WEB", WebBluePhases, 1000, true),
      Sector("blue-net", "Network Hardening", "Infrastructure Defense", BlueTeam, Advanced, 5000, "BLUE-NET", NetBluePhases, 500, true),
      Sector("blue-pass", "Identity Protection", "Authentication Defense", BlueTeam, Intermediate, 1000, "BLUE-PASS", PassBluePhases, 100, true),
      Sector("blue-cloud", "Cloud Guarding", "Cloud Hardening", BlueTeam, Advanced, 3000, "BLUE-CL", CloudBluePhases, 300, true),
      Sector("blue-social", "Human Firewall", "Social Defense", BlueTeam, Advanced, 5000, "BLUE-SE", SocialBluePhases, 500, true),
      Sector("blue-ai", "AI Shielding", "AI Defense", BlueTeam, Advanced, 4000, "BLUE-AI", AiBluePhases, 400, true),
      Sector("blue-mob", "Mobile Hardening", "Mobile Security", BlueTeam, Advanced, 4000, "BLUE-MOB", MobBluePhases, 400, true)
    ]
  }

  /** The catalog's module ids are pairwise distinct, so completion keys of
      different sectors never collide. */
  lemma CatalogIdsDistinct()
    ensures forall a, b :: 0 <= a < b < |InitialModules()| ==> InitialModules()[a].id != InitialModules()[b].id
  {
  }

  /** Every Red Team sector is generated offensive and every Blue Team sector
      defensive. */
  lemma CatalogTeams()
    ensures forall a :: 0 <= a < |InitialModules()| ==> TeamConsistent(InitialModules()[a])
  {
  }

  /** The first seven sectors are the Red Team's, the last seven the Blue
      Team's; web pentesting comes first, with 1000 labs. */
  lemma CatalogSides()
    ensures forall a :: 0 <= a < |InitialModules()| ==> (InitialModules()[a].team == RedTeam <==> a < 7)
    ensures InitialModules()[0].id == "red-web" && |InitialModules()[0].labs| == 1000
  {
  }
}
