/**
 * The task classifications the test suite expects, proved one keyword at a
 * time: a keyword is ruled out by a character the lower-cased task lacks, or,
 * when every character is present, word by word.
 */
module RouterExamples {
  import opened Text
  import opened Router

  // ---- "Write a Python function"

  const WriteFunctionTask := "write a python function"

  lemma WriteFunctionLowered() ensures Lower("Write a Python function") == WriteFunctionTask { }

  lemma WriteFunctionHitsCode() ensures Hit(WriteFunctionTask, Code) {
    assert OccursAt(WriteFunctionTask, "function", 15);
    assert "function" in Keywords(Code);
  }

  /** "Write a Python function" is classified as code. */
  lemma ClassifyWriteFunction()
    ensures ClassifyIntent("Write a Python function") == Code
  {
    WriteFunctionLowered();
    WriteFunctionHitsCode();
  }

  // ---- "Research quantum computing"

  const ResearchQuantumTask := "research quantum computing"

  lemma ResearchQuantumLowered() ensures Lower("Research quantum computing") == ResearchQuantumTask { }

  lemma ResearchQuantumLacksCode() ensures !Contains(ResearchQuantumTask, "code") { MissingCharExcludes(ResearchQuantumTask, "code", 'd'); }
  lemma ResearchQuantumLacksProgram()
    ensures !Contains(ResearchQuantumTask, "program")
  {
    assert ResearchQuantumTask == "research" + [' '] + ("quantum" + [' '] + "computing");
    MissingCharExcludes("research", "program", 'p');
    MissingCharExcludes("quantum", "program", 'p');
    MissingCharExcludes("computing", "program", 'r');
    SeparatedExcludes("quantum", ' ', "computing", "program");
    SeparatedExcludes("research", ' ', "quantum" + [' '] + "computing", "program");
  }
  lemma ResearchQuantumLacksFunction() ensures !Contains(ResearchQuantumTask, "function") { MissingCharExcludes(ResearchQuantumTask, "function", 'f'); }
  lemma ResearchQuantumLacksDebug() ensures !Contains(ResearchQuantumTask, "debug") { MissingCharExcludes(ResearchQuantumTask, "debug", 'd'); }
  lemma ResearchQuantumLacksRefactor() ensures !Contains(ResearchQuantumTask, "refactor") { MissingCharExcludes(ResearchQuantumTask, "refactor", 'f'); }
  lemma ResearchQuantumLacksImplement() ensures !Contains(ResearchQuantumTask, "implement") { MissingCharExcludes(ResearchQuantumTask, "implement", 'l'); }

  lemma ResearchQuantumMissesCode() ensures !Hit(ResearchQuantumTask, Code) {
    ResearchQuantumLacksCode(); ResearchQuantumLacksProgram(); ResearchQuantumLacksFunction(); ResearchQuantumLacksDebug(); ResearchQuantumLacksRefactor(); ResearchQuantumLacksImplement();
  }

  lemma ResearchQuantumLacksTerminal() ensures !Contains(ResearchQuantumTask, "terminal") { MissingCharExcludes(ResearchQuantumTask, "terminal", 'l'); }
  lemma ResearchQuantumLacksCommand() ensures !Contains(ResearchQuantumTask, "command") { MissingCharExcludes(ResearchQuantumTask, "command", 'd'); }
  lemma ResearchQuantumLacksShell() ensures !Contains(ResearchQuantumTask, "shell") { MissingCharExcludes(ResearchQuantumTask, "shell", 'l'); }
  lemma ResearchQuantumLacksBash() ensures !Contains(ResearchQuantumTask, "bash") { MissingCharExcludes(ResearchQuantumTask, "bash", 'b'); }
  lemma ResearchQuantumLacksRun()
    ensures !Contains(ResearchQuantumTask, "run")
  {
    assert ResearchQuantumTask == "research" + [' '] + ("quantum" + [' '] + "computing");
    MissingCharExcludes("research", "run", 'u');
    MissingCharExcludes("quantum", "run", 'r');
    MissingCharExcludes("computing", "run", 'r');
    SeparatedExcludes("quantum", ' ', "computing", "run");
    SeparatedExcludes("research", ' ', "quantum" + [' '] + "computing", "run");
  }

  lemma ResearchQuantumMissesTerminal() ensures !Hit(ResearchQuantumTask, Terminal) {
    ResearchQuantumLacksTerminal(); ResearchQuantumLacksCommand(); ResearchQuantumLacksShell(); ResearchQuantumLacksBash(); ResearchQuantumLacksRun();
  }

  lemma ResearchQuantumHitsResearch() ensures Hit(ResearchQuantumTask, Research) {
    assert OccursAt(ResearchQuantumTask, "research", 0);
    assert "research" in Keywords(Research);
  }

  /** "Research quantum computing" is classified as research. */
  lemma ClassifyResearchQuantum()
    ensures ClassifyIntent("Research quantum computing") == Research
  {
    ResearchQuantumLowered();
    ResearchQuantumMissesCode(); ResearchQuantumMissesTerminal(); ResearchQuantumHitsResearch();
  }

  // ---- "Explain how this works"

  const ExplainHowTask := "explain how this works"

  lemma ExplainHowLowered() ensures Lower("Explain how this works") == ExplainHowTask { }

  lemma ExplainHowLacksCode() ensures !Contains(ExplainHowTask, "code") { MissingCharExcludes(ExplainHowTask, "code", 'c'); }
  lemma ExplainHowLacksProgram() ensures !Contains(ExplainHowTask, "program") { MissingCharExcludes(ExplainHowTask, "program", 'g'); }
  lemma ExplainHowLacksFunction() ensures !Contains(ExplainHowTask, "function") { MissingCharExcludes(ExplainHowTask, "function", 'f'); }
  lemma ExplainHowLacksDebug() ensures !Contains(ExplainHowTask, "debug") { MissingCharExcludes(ExplainHowTask, "debug", 'd'); }
  lemma ExplainHowLacksRefactor() ensures !Contains(ExplainHowTask, "refactor") { MissingCharExcludes(ExplainHowTask, "refactor", 'f'); }
  lemma ExplainHowLacksImplement() ensures !Contains(ExplainHowTask, "implement") { MissingCharExcludes(ExplainHowTask, "implement", 'm'); }

  lemma ExplainHowMissesCode() ensures !Hit(ExplainHowTask, Code) {
    ExplainHowLacksCode(); ExplainHowLacksProgram(); ExplainHowLacksFunction(); ExplainHowLacksDebug(); ExplainHowLacksRefactor(); ExplainHowLacksImplement();
  }

  lemma ExplainHowLacksTerminal() ensures !Contains(ExplainHowTask, "terminal") { MissingCharExcludes(ExplainHowTask, "terminal", 'm'); }
  lemma ExplainHowLacksCommand() ensures !Contains(ExplainHowTask, "command") { MissingCharExcludes(ExplainHowTask, "command", 'c'); }
  lemma ExplainHowLacksShell()
    ensures !Contains(ExplainHowTask, "shell")
  {
    assert ExplainHowTask == "explain" + [' '] + ("how" + [' '] + ("this" + [' '] + "works"));
    MissingCharExcludes("explain", "shell", 's');
    MissingCharExcludes("how", "shell", 's');
    MissingCharExcludes("this", "shell", 'e');
    MissingCharExcludes("works", "shell", 'h');
    SeparatedExcludes("this", ' ', "works", "shell");
    SeparatedExcludes("how", ' ', "this" + [' '] + "works", "shell");
    SeparatedExcludes("explain", ' ', "how" + [' '] + ("this" + [' '] + "works"), "shell");
  }
  lemma ExplainHowLacksBash() ensures !Contains(ExplainHowTask, "bash") { MissingCharExcludes(ExplainHowTask, "bash", 'b'); }
  lemma ExplainHowLacksRun() ensures !Contains(ExplainHowTask, "run") { MissingCharExcludes(ExplainHowTask, "run", 'u'); }

  lemma ExplainHowMissesTerminal() ensures !Hit(ExplainHowTask, Terminal) {
    ExplainHowLacksTerminal(); ExplainHowLacksCommand(); ExplainHowLacksShell(); ExplainHowLacksBash(); ExplainHowLacksRun();
  }

  lemma ExplainHowLacksResearch() ensures !Contains(ExplainHowTask, "research") { MissingCharExcludes(ExplainHowTask, "research", 'c'); }
  lemma ExplainHowLacksFind() ensures !Contains(ExplainHowTask, "find") { MissingCharExcludes(ExplainHowTask, "find", 'f'); }
  lemma ExplainHowLacksSearch() ensures !Contains(ExplainHowTask, "search") { MissingCharExcludes(ExplainHowTask, "search", 'c'); }
  lemma ExplainHowLacksLearn()
    ensures !Contains(ExplainHowTask, "learn")
  {
    assert ExplainHowTask == "explain" + [' '] + ("how" + [' '] + ("this" + [' '] + "works"));
    MissingCharExcludes("explain", "learn", 'r');
    MissingCharExcludes("how", "learn", 'l');
    MissingCharExcludes("this", "learn", 'l');
    MissingCharExcludes("works", "learn", 'l');
    SeparatedExcludes("this", ' ', "works", "learn");
    SeparatedExcludes("how", ' ', "this" + [' '] + "works", "learn");
    SeparatedExcludes("explain", ' ', "how" + [' '] + ("this" + [' '] + "works"), "learn");
  }
  lemma ExplainHowLacksDiscover() ensures !Contains(ExplainHowTask, "discover") { MissingCharExcludes(ExplainHowTask, "discover", 'd'); }

  lemma ExplainHowMissesResearch() ensures !Hit(ExplainHowTask, Research) {
    ExplainHowLacksResearch(); ExplainHowLacksFind(); ExplainHowLacksSearch(); ExplainHowLacksLearn(); ExplainHowLacksDiscover();
  }

  lemma ExplainHowLacksCreate() ensures !Contains(ExplainHowTask, "create") { MissingCharExcludes(ExplainHowTask, "create", 'c'); }
  lemma ExplainHowLacksImagine() ensures !Contains(ExplainHowTask, "imagine") { MissingCharExcludes(ExplainHowTask, "imagine", 'm'); }
  lemma ExplainHowLacksBrainstorm() ensures !Contains(ExplainHowTask, "brainstorm") { MissingCharExcludes(ExplainHowTask, "brainstorm", 'b'); }
  lemma ExplainHowLacksDesign() ensures !Contains(ExplainHowTask, "design") { MissingCharExcludes(ExplainHowTask, "design", 'd'); }
  lemma ExplainHowLacksGenerate() ensures !Contains(ExplainHowTask, "generate") { MissingCharExcludes(ExplainHowTask, "generate", 'g'); }

  lemma ExplainHowMissesCreative() ensures !Hit(ExplainHowTask, Creative) {
    ExplainHowLacksCreate(); ExplainHowLacksImagine(); ExplainHowLacksBrainstorm(); ExplainHowLacksDesign(); ExplainHowLacksGenerate();
  }

  lemma ExplainHowHitsAnalysis() ensures Hit(ExplainHowTask, Analysis) {
    assert OccursAt(ExplainHowTask, "explain", 0);
    assert "explain" in Keywords(Analysis);
  }

  /** "Explain how this works" is classified as analysis. */
  lemma ClassifyExplainHow()
    ensures ClassifyIntent("Explain how this works") == Analysis
  {
    ExplainHowLowered();
    ExplainHowMissesCode(); ExplainHowMissesTerminal(); ExplainHowMissesResearch(); ExplainHowMissesCreative(); ExplainHowHitsAnalysis();
  }

  // ---- "Design a creative logo"

  const DesignLogoTask := "design a creative logo"

  lemma DesignLogoLowered() ensures Lower("Design a creative logo") == DesignLogoTask { }

  lemma DesignLogoLacksCode()
    ensures !Contains(DesignLogoTask, "code")
  {
    assert DesignLogoTask == "design" + [' '] + ("a" + [' '] + ("creative" + [' '] + "logo"));
    MissingCharExcludes("design", "code", 'c');
    MissingCharExcludes("a", "code", 'c');
    MissingCharExcludes("creative", "code", 'o');
    MissingCharExcludes("logo", "code", 'c');
    SeparatedExcludes("creative", ' ', "logo", "code");
    SeparatedExcludes("a", ' ', "creative" + [' '] + "logo", "code");
    SeparatedExcludes("design", ' ', "a" + [' '] + ("creative" + [' '] + "logo"), "code");
  }
  lemma DesignLogoLacksProgram() ensures !Contains(DesignLogoTask, "program") { MissingCharExcludes(DesignLogoTask, "program", 'p'); }
  lemma DesignLogoLacksFunction() ensures !Contains(DesignLogoTask, "function") { MissingCharExcludes(DesignLogoTask, "function", 'f'); }
  lemma DesignLogoLacksDebug() ensures !Contains(DesignLogoTask, "debug") { MissingCharExcludes(DesignLogoTask, "debug", 'b'); }
  lemma DesignLogoLacksRefactor() ensures !Contains(DesignLogoTask, "refactor") { MissingCharExcludes(DesignLogoTask, "refactor", 'f'); }
  lemma DesignLogoLacksImplement() ensures !Contains(DesignLogoTask, "implement") { MissingCharExcludes(DesignLogoTask, "implement", 'm'); }

  lemma DesignLogoMissesCode() ensures !Hit(DesignLogoTask, Code) {
    DesignLogoLacksCode(); DesignLogoLacksProgram(); DesignLogoLacksFunction(); DesignLogoLacksDebug(); DesignLogoLacksRefactor(); DesignLogoLacksImplement();
  }

  lemma DesignLogoLacksTerminal() ensures !Contains(DesignLogoTask, "terminal") { MissingCharExcludes(DesignLogoTask, "terminal", 'm'); }
  lemma DesignLogoLacksCommand() ensures !Contains(DesignLogoTask, "command") { MissingCharExcludes(DesignLogoTask, "command", 'm'); }
  lemma DesignLogoLacksShell() ensures !Contains(DesignLogoTask, "shell") { MissingCharExcludes(DesignLogoTask, "shell", 'h'); }
  lemma DesignLogoLacksBash() ensures !Contains(DesignLogoTask, "bash") { MissingCharExcludes(DesignLogoTask, "bash", 'b'); }
  lemma DesignLogoLacksRun() ensures !Contains(DesignLogoTask, "run") { MissingCharExcludes(DesignLogoTask, "run", 'u'); }

  lemma DesignLogoMissesTerminal() ensures !Hit(DesignLogoTask, Terminal) {
    DesignLogoLacksTerminal(); DesignLogoLacksCommand(); DesignLogoLacksShell(); DesignLogoLacksBash(); DesignLogoLacksRun();
  }

  lemma DesignLogoLacksResearch() ensures !Contains(DesignLogoTask, "research") { MissingCharExcludes(DesignLogoTask, "research", 'h'); }
  lemma DesignLogoLacksFind() ensures !Contains(DesignLogoTask, "find") { MissingCharExcludes(DesignLogoTask, "find", 'f'); }
  lemma DesignLogoLacksSearch() ensures !Contains(DesignLogoTask, "search") { MissingCharExcludes(DesignLogoTask, "search", 'h'); }
  lemma DesignLogoLacksLearn()
    ensures !Contains(DesignLogoTask, "learn")
  {
    assert DesignLogoTask == "design" + [' '] + ("a" + [' '] + ("creative" + [' '] + "logo"));
    MissingCharExcludes("design", "learn", 'l');
    MissingCharExcludes("a", "learn", 'l');
    MissingCharExcludes("creative", "learn", 'l');
    MissingCharExcludes("logo", "learn", 'e');
    SeparatedExcludes("creative", ' ', "logo", "learn");
    SeparatedExcludes("a", ' ', "creative" + [' '] + "logo", "learn");
    SeparatedExcludes("design", ' ', "a" + [' '] + ("creative" + [' '] + "logo"), "learn");
  }
  lemma DesignLogoLacksDiscover()
    ensures !Contains(DesignLogoTask, "discover")
  {
    assert DesignLogoTask == "design" + [' '] + ("a" + [' '] + ("creative" + [' '] + "logo"));
    MissingCharExcludes("design", "discover", 'c');
    MissingCharExcludes("a", "discover", 'd');
    MissingCharExcludes("creative", "discover", 'd');
    MissingCharExcludes("logo", "discover", 'd');
    SeparatedExcludes("creative", ' ', "logo", "discover");
    SeparatedExcludes("a", ' ', "creative" + [' '] + "logo", "discover");
    SeparatedExcludes("design", ' ', "a" + [' '] + ("creative" + [' '] + "logo"), "discover");
  }

  lemma DesignLogoMissesResearch() ensures !Hit(DesignLogoTask, Research) {
    DesignLogoLacksResearch(); DesignLogoLacksFind(); DesignLogoLacksSearch(); DesignLogoLacksLearn(); DesignLogoLacksDiscover();
  }

  lemma DesignLogoHitsCreative() ensures Hit(DesignLogoTask, Creative) {
    assert OccursAt(DesignLogoTask, "design", 0);
    assert "design" in Keywords(Creative);
  }

  /** "Design a creative logo" is classified as creative. */
  lemma ClassifyDesignLogo()
    ensures ClassifyIntent("Design a creative logo") == Creative
  {
    DesignLogoLowered();
    DesignLogoMissesCode(); DesignLogoMissesTerminal(); DesignLogoMissesResearch(); DesignLogoHitsCreative();
  }

  // ---- "Hello, how are you?"

  const GreetingTask := "hello, how are you?"

  lemma GreetingLowered() ensures Lower("Hello, how are you?") == GreetingTask { }

  lemma GreetingLacksCode() ensures !Contains(GreetingTask, "code") { MissingCharExcludes(GreetingTask, "code", 'c'); }
  lemma GreetingLacksProgram() ensures !Contains(GreetingTask, "program") { MissingCharExcludes(GreetingTask, "program", 'p'); }
  lemma GreetingLacksFunction() ensures !Contains(GreetingTask, "function") { MissingCharExcludes(GreetingTask, "function", 'f'); }
  lemma GreetingLacksDebug() ensures !Contains(GreetingTask, "debug") { MissingCharExcludes(GreetingTask, "debug", 'd'); }
  lemma GreetingLacksRefactor() ensures !Contains(GreetingTask, "refactor") { MissingCharExcludes(GreetingTask, "refactor", 'f'); }
  lemma GreetingLacksImplement() ensures !Contains(GreetingTask, "implement") { MissingCharExcludes(GreetingTask, "implement", 'i'); }

  lemma GreetingMissesCode() ensures !Hit(GreetingTask, Code) {
    GreetingLacksCode(); GreetingLacksProgram(); GreetingLacksFunction(); GreetingLacksDebug(); GreetingLacksRefactor(); GreetingLacksImplement();
  }

  lemma GreetingLacksTerminal() ensures !Contains(GreetingTask, "terminal") { MissingCharExcludes(GreetingTask, "terminal", 't'); }
  lemma GreetingLacksCommand() ensures !Contains(GreetingTask, "command") { MissingCharExcludes(GreetingTask, "command", 'c'); }
  lemma GreetingLacksShell() ensures !Contains(GreetingTask, "shell") { MissingCharExcludes(GreetingTask, "shell", 's'); }
  lemma GreetingLacksBash() ensures !Contains(GreetingTask, "bash") { MissingCharExcludes(GreetingTask, "bash", 'b'); }
  lemma GreetingLacksRun() ensures !Contains(GreetingTask, "run") { MissingCharExcludes(GreetingTask, "run", 'n'); }

  lemma GreetingMissesTerminal() ensures !Hit(GreetingTask, Terminal) {
    GreetingLacksTerminal(); GreetingLacksCommand(); GreetingLacksShell(); GreetingLacksBash(); GreetingLacksRun();
  }

  lemma GreetingLacksResearch() ensures !Contains(GreetingTask, "research") { MissingCharExcludes(GreetingTask, "research", 's'); }
  lemma GreetingLacksFind() ensures !Contains(GreetingTask, "find") { MissingCharExcludes(GreetingTask, "find", 'f'); }
  lemma GreetingLacksSearch() ensures !Contains(GreetingTask, "search") { MissingCharExcludes(GreetingTask, "search", 's'); }
  lemma GreetingLacksLearn() ensures !Contains(GreetingTask, "learn") { MissingCharExcludes(GreetingTask, "learn", 'n'); }
  lemma GreetingLacksDiscover() ensures !Contains(GreetingTask, "discover") { MissingCharExcludes(GreetingTask, "discover", 'd'); }

  lemma GreetingMissesResearch() ensures !Hit(GreetingTask, Research) {
    GreetingLacksResearch(); GreetingLacksFind(); GreetingLacksSearch(); GreetingLacksLearn(); GreetingLacksDiscover();
  }

  lemma GreetingLacksCreate() ensures !Contains(GreetingTask, "create") { MissingCharExcludes(GreetingTask, "create", 'c'); }
  lemma GreetingLacksImagine() ensures !Contains(GreetingTask, "imagine") { MissingCharExcludes(GreetingTask, "imagine", 'i'); }
  lemma GreetingLacksBrainstorm() ensures !Contains(GreetingTask, "brainstorm") { MissingCharExcludes(GreetingTask, "brainstorm", 'b'); }
  lemma GreetingLacksDesign() ensures !Contains(GreetingTask, "design") { MissingCharExcludes(GreetingTask, "design", 'd'); }
  lemma GreetingLacksGenerate() ensures !Contains(GreetingTask, "generate") { MissingCharExcludes(GreetingTask, "generate", 'g'); }

  lemma GreetingMissesCreative() ensures !Hit(GreetingTask, Creative) {
    GreetingLacksCreate(); GreetingLacksImagine(); GreetingLacksBrainstorm(); GreetingLacksDesign(); GreetingLacksGenerate();
  }

  lemma GreetingLacksAnalyze() ensures !Contains(GreetingTask, "analyze") { MissingCharExcludes(GreetingTask, "analyze", 'n'); }
  lemma GreetingLacksExplain() ensures !Contains(GreetingTask, "explain") { MissingCharExcludes(GreetingTask, "explain", 'x'); }
  lemma GreetingLacksWhyDoes() ensures !Contains(GreetingTask, "why does") { MissingCharExcludes(GreetingTask, "why does", 'd'); }
  lemma GreetingLacksHowDoes() ensures !Contains(GreetingTask, "how does") { MissingCharExcludes(GreetingTask, "how does", 'd'); }
  lemma GreetingLacksHowCan() ensures !Contains(GreetingTask, "how can") { MissingCharExcludes(GreetingTask, "how can", 'c'); }
  lemma GreetingLacksUnderstand() ensures !Contains(GreetingTask, "understand") { MissingCharExcludes(GreetingTask, "understand", 'n'); }

  lemma GreetingMissesAnalysis() ensures !Hit(GreetingTask, Analysis) {
    GreetingLacksAnalyze(); GreetingLacksExplain(); GreetingLacksWhyDoes(); GreetingLacksHowDoes(); GreetingLacksHowCan(); GreetingLacksUnderstand();
  }

  /** "Hello, how are you?" is classified as general. */
  lemma ClassifyGreeting()
    ensures ClassifyIntent("Hello, how are you?") == General
  {
    GreetingLowered();
    GreetingMissesCode(); GreetingMissesTerminal(); GreetingMissesResearch(); GreetingMissesCreative(); GreetingMissesAnalysis();
  }

}
