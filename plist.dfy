/** The LaunchAgent descriptor: what it says (a record) and the text that
    `install` writes (the template of cli.py), in Apple's XML property-list
    layout (PropertyList-1.0 DTD). Values are interpolated without XML
    escaping, so the text is not claimed to be well-formed XML. */
module Plist {
  import opened Paths

  /** The keys of the descriptor the template fills in. */
  datatype Descriptor = Descriptor(
    serviceLabel: string,
    programArguments: seq<string>,
    runAtLoad: bool,
    keepAlive: bool,
    standardOutPath: string,
    standardErrorPath: string,
    workingDirectory: string)

  /** Joins the lines of a text. */
  function Concat(lines: seq<string>): string {
    if lines == [] then "" else lines[0] + Concat(lines[1..])
  }

  lemma {:induction false} ConcatAppend(a: seq<string>, b: seq<string>)
    ensures Concat(a + b) == Concat(a) + Concat(b)
  {
    if a == [] {
      assert a + b == b;
    } else {
      assert (a + b)[1..] == a[1..] + b;
      ConcatAppend(a[1..], b);
    }
  }

  function KeyLine(key: string): string {
    "    <key>" + key + "</key>\n"
  }

  function StringLine(indent: string, value: string): string {
    indent + "<string>" + value + "</string>\n"
  }

  function BoolLine(b: bool): string {
    if b then "    <true/>\n" else "    <false/>\n"
  }

  /** The `<array>` items, one `<string>` line per argument. */
  function ArrayLines(args: seq<string>): seq<string> {
    if args == [] then [] else [StringLine("        ", args[0])] + ArrayLines(args[1..])
  }

  /** The XML declaration, the document type and the opening tags. */
  const Preamble: seq<string> := [
    "<?xml version=\"1.0\" encoding=\"UTF-8\"?>\n",
    "<!DOCTYPE plist PUBLIC \"-//Apple//DTD PLIST 1.0//EN\" \"http://www.apple.com/DTDs/PropertyList-1.0.dtd\">\n",
    "<plist version=\"1.0\">\n",
    "<dict>\n"]

  const Closing: seq<string> := ["</dict>\n", "</plist>\n"]

  /** A descriptor laid out line by line, four spaces per nesting level. */
  function RenderLines(d: Descriptor): seq<string> {
    RenderHead(d.serviceLabel) + ArrayLines(d.programArguments) + RenderTail(d)
  }

  function RenderHead(serviceLabel: string): seq<string> {
    Preamble + [KeyLine("Label"), StringLine("    ", serviceLabel), KeyLine("ProgramArguments"), "    <array>\n"]
  }

  function RenderTail(d: Descriptor): seq<string> {
    [ "    </array>\n",
      KeyLine("RunAtLoad"), BoolLine(d.runAtLoad),
      KeyLine("KeepAlive"), BoolLine(d.keepAlive),
      KeyLine("StandardOutPath"), StringLine("    ", d.standardOutPath),
      KeyLine("StandardErrorPath"), StringLine("    ", d.standardErrorPath),
      KeyLine("WorkingDirectory"), StringLine("    ", d.workingDirectory) ]
    + Closing
  }

  function Render(d: Descriptor): string {
    Concat(RenderLines(d))
  }

  /** `install`'s f-string template, line by line: the fixed lines before the
      program arguments, the argument lines, and the lines after them. */
  const TemplateHead: seq<string> := [
    "<?xml version=\"1.0\" encoding=\"UTF-8\"?>\n",
    "<!DOCTYPE plist PUBLIC \"-//Apple//DTD PLIST 1.0//EN\" \"http://www.apple.com/DTDs/PropertyList-1.0.dtd\">\n",
    "<plist version=\"1.0\">\n",
    "<dict>\n",
    "    <key>Label</key>\n",
    "    <string>com.localrun.agent</string>\n",
    "    <key>ProgramArguments</key>\n",
    "    <array>\n"]

  function TemplateArguments(bin: string): seq<string> {
    [ "        <string>" + bin + "</string>\n",
      "        <string>serve</string>\n",
      "        <string>--port</string>\n",
      "        <string>47777</string>\n" ]
  }

  function TemplateTail(log: string, home: string): seq<string> {
    [ "    </array>\n",
      "    <key>RunAtLoad</key>\n",
      "    <true/>\n",
      "    <key>KeepAlive</key>\n",
      "    <true/>\n",
      "    <key>StandardOutPath</key>\n",
      "    <string>" + log + "</string>\n",
      "    <key>StandardErrorPath</key>\n",
      "    <string>" + log + "</string>\n",
      "    <key>WorkingDirectory</key>\n",
      "    <string>" + home + "</string>\n",
      "</dict>\n",
      "</plist>\n" ]
  }

  /** The text `install` writes, with the executable path, the log file and
      the home directory filled in. */
  function Template(bin: string, log: string, home: string): string {
    Concat(TemplateHead + TemplateArguments(bin) + TemplateTail(log, home))
  }

  /** The descriptor `install` writes for executable `bin`. */
  function AgentDescriptor(bin: string, home: string): Descriptor {
    Descriptor(Label, [bin, "serve", "--port", "47777"], true, true, LogFile(home), LogFile(home), home)
  }

  /** The fixed lines of the template, as the helpers produce them. */
  lemma FixedLines()
    ensures KeyLine("Label") == "    <key>Label</key>\n"
    ensures KeyLine("ProgramArguments") == "    <key>ProgramArguments</key>\n"
    ensures KeyLine("RunAtLoad") == "    <key>RunAtLoad</key>\n"
    ensures KeyLine("KeepAlive") == "    <key>KeepAlive</key>\n"
    ensures KeyLine("StandardOutPath") == "    <key>StandardOutPath</key>\n"
    ensures KeyLine("StandardErrorPath") == "    <key>StandardErrorPath</key>\n"
    ensures KeyLine("WorkingDirectory") == "    <key>WorkingDirectory</key>\n"
    ensures StringLine("    ", Label) == "    <string>com.localrun.agent</string>\n"
    ensures StringLine("        ", "serve") == "        <string>serve</string>\n"
    ensures StringLine("        ", "--port") == "        <string>--port</string>\n"
    ensures StringLine("        ", "47777") == "        <string>47777</string>\n"
  {
    KeyLines1();
    LabelLine();
    KeyLines2();
    KeyLines3();
    ArgumentLines();
  }

  lemma KeyLines1()
    ensures KeyLine("Label") == "    <key>Label</key>\n"
    ensures KeyLine("ProgramArguments") == "    <key>ProgramArguments</key>\n"
  {
  }

  lemma LabelLine()
    ensures StringLine("    ", Label) == "    <string>com.localrun.agent</string>\n"
  {
    assert StringLine("    ", Label) == "    " + "<string>" + "com.localrun.agent" + "</string>\n";
    assert "    " + "<string>" == "    <string>";
    assert "    <string>" + "com.localrun.agent" == "    <string>com.localrun.agent";
  }

  lemma KeyLines2()
    ensures KeyLine("RunAtLoad") == "    <key>RunAtLoad</key>\n"
    ensures KeyLine("KeepAlive") == "    <key>KeepAlive</key>\n"
  {
  }

  lemma KeyLines3()
    ensures KeyLine("StandardOutPath") == "    <key>StandardOutPath</key>\n"
    ensures KeyLine("StandardErrorPath") == "    <key>StandardErrorPath</key>\n"
    ensures KeyLine("WorkingDirectory") == "    <key>WorkingDirectory</key>\n"
  {
    assert "    <key>" + "StandardOutPath" == "    <key>StandardOutPath";
    assert "    <key>" + "StandardErrorPath" == "    <key>StandardErrorPath";
    assert "    <key>" + "WorkingDirectory" == "    <key>WorkingDirectory";
  }

  lemma ArgumentLines()
    ensures StringLine("        ", "serve") == "        <string>serve</string>\n"
    ensures StringLine("        ", "--port") == "        <string>--port</string>\n"
    ensures StringLine("        ", "47777") == "        <string>47777</string>\n"
  {
  }

  lemma ValueLines(v: string)
    ensures StringLine("    ", v) == "    <string>" + v + "</string>\n"
    ensures StringLine("        ", v) == "        <string>" + v + "</string>\n"
  {
  }

  lemma ArgumentsRendered(bin: string)
    ensures ArrayLines([bin, "serve", "--port", "47777"]) == TemplateArguments(bin)
  {
    var args := [bin, "serve", "--port", "47777"];
    FixedLines();
    ValueLines(bin);
    assert args[1..][1..][1..][1..] == [];
    assert ArrayLines(args[1..][1..][1..]) == TemplateArguments(bin)[3..];
    assert ArrayLines(args[1..][1..]) == TemplateArguments(bin)[2..];
    assert ArrayLines(args[1..]) == TemplateArguments(bin)[1..];
  }

  lemma HeadRendered()
    ensures RenderHead(Label) == TemplateHead
  {
    FixedLines();
  }

  lemma TailRendered(bin: string, home: string)
    ensures RenderTail(AgentDescriptor(bin, home)) == TemplateTail(LogFile(home), home)
  {
    FixedLines();
    ValueLines(LogFile(home));
    ValueLines(home);
  }

  /** The template text is exactly the rendering of the agent's descriptor:
      label `com.localrun.agent`, arguments `[bin, "serve", "--port", "47777"]`,
      run at load, keep alive, both output streams to the log file and the
      home directory as working directory. */
  lemma TemplateDescribesAgent(bin: string, home: string)
    ensures Template(bin, LogFile(home), home) == Render(AgentDescriptor(bin, home))
  {
    ArgumentsRendered(bin);
    HeadRendered();
    TailRendered(bin, home);
  }

  /** The template's text is the fixed head, the line naming the program,
      and a rest that does not depend on the program. */
  lemma TemplateSplit(bin: string, log: string, home: string)
    ensures Template(bin, log, home)
         == Concat(TemplateHead) + ("        <string>" + bin + "</string>\n")
            + Concat(TemplateArguments("")[1..] + TemplateTail(log, home))
  {
    var h, a, r := TemplateHead, TemplateArguments(bin), TemplateArguments("")[1..] + TemplateTail(log, home);
    var line := "        <string>" + bin + "</string>\n";
    assert a[1..] == TemplateArguments("")[1..];
    assert h + a + TemplateTail(log, home) == (h + [line]) + r;
    ConcatAppend(h + [line], r);
    ConcatAppend(h, [line]);
    assert [line][1..] == [];
    assert Concat([line]) == line;
  }

  /** Under a fixed log file and home directory, the written text determines
      the executable path: two different paths never give the same text. */
  lemma TemplateDeterminesProgram(b1: string, b2: string, log: string, home: string)
    requires Template(b1, log, home) == Template(b2, log, home)
    ensures b1 == b2
  {
    TemplateSplit(b1, log, home);
    TemplateSplit(b2, log, home);
    MiddleDetermined(Concat(TemplateHead), b1, b2, Concat(TemplateArguments("")[1..] + TemplateTail(log, home)));
  }

  /** The argument line between a fixed head and a fixed rest gives back its value. */
  lemma MiddleDetermined(head: string, b1: string, b2: string, rest: string)
    requires head + ("        <string>" + b1 + "</string>\n") + rest == head + ("        <string>" + b2 + "</string>\n") + rest
    ensures b1 == b2
  {
    var t1 := head + ("        <string>" + b1 + "</string>\n") + rest;
    var t2 := head + ("        <string>" + b2 + "</string>\n") + rest;
    assert |b1| == |b2|;
    assert t1[|head| + 16..|head| + 16 + |b1|] == b1;
    assert t2[|head| + 16..|head| + 16 + |b2|] == b2;
  }
}
