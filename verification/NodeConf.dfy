// The node's configuration file (node.go, mondConf and checkMondConf): the file
// monvark writes is one it accepts at the next start.
module NodeConf {
  import opened Text

  predicate HasPrefix(s: string, prefix: string) {
    |prefix| <= |s| && s[..|prefix|] == prefix
  }

  // The part of a line before its first equals sign, without spaces.
  function KeyOf(line: string): string {
    TrimSpace(Split(line, '=')[0])
  }

  predicate Redirects(key: string) {
    key == "miningaddr" || key == "generate"
  }

  // A line that would redirect the block reward, or keep the node from serving
  // work.
  predicate Offends(line: string) {
    var t := TrimSpace(line);
    t != "" && !HasPrefix(t, ";") && !HasPrefix(t, "#") && Redirects(KeyOf(t))
  }

  predicate NoneOffends(lines: seq<string>) {
    forall k :: 0 <= k < |lines| ==> !Offends(lines[k])
  }

  // What reading the file gives.
  datatype ReadFile = Missing | Unreadable | Body(text: string)

  // A missing file is accepted; one that is there must be readable, by nobody but
  // its owner, and hold no line that offends.
  method CheckMondConf(file: ReadFile, private: bool) returns (ok: bool)
    ensures ok <==> || file.Missing?
                    || (&& file.Body? && private
                        && forall line :: line in Split(file.text, '\n') ==> !Offends(line))
  {
    hide Split, TrimSpace, KeyOf;
    if file.Missing? {
      return true;
    }
    if file.Unreadable? {
      return false;
    }
    if !private {
      return false;
    }
    var lines := Split(file.text, '\n');
    for i := 0 to |lines|
      invariant forall k :: 0 <= k < i ==> !Offends(lines[k])
    {
      var line := TrimSpace(lines[i]);
      if line == "" || HasPrefix(line, ";") || HasPrefix(line, "#") {
        continue;
      }
      if Redirects(KeyOf(line)) {
        assert Offends(lines[i]) && lines[i] in lines;
        return false;
      }
    }
    return true;
  }

  function Unlines(lines: seq<string>): string {
    if lines == [] then "" else lines[0] + ['\n'] + Unlines(lines[1..])
  }

  lemma {:induction false} SplitUnlines(lines: seq<string>)
    requires forall k :: 0 <= k < |lines| ==> '\n' !in lines[k]
    ensures Split(Unlines(lines), '\n') == lines + [""]
  {
    if lines != [] {
      SplitAt(lines[0], Unlines(lines[1..]), '\n');
      SplitWhole(lines[0], '\n');
      SplitUnlines(lines[1..]);
      assert [lines[0]] + (lines[1..] + [""]) == lines + [""];
    }
  }

  // A key and a value, as mondConf renders them.
  function KeyLine(key: string, value: string): string {
    key + ['='] + value
  }

  // The file's lines below its heading of comments.
  function Credentials(user: string, pass: string, listen: string, cert: string, key: string): seq<string> {
    [KeyLine("rpcuser", user), KeyLine("rpcpass", pass), KeyLine("rpclisten", listen), KeyLine("rpccert", cert),
     KeyLine("rpckey", key)]
  }

  function MondConf(heading: seq<string>, user: string, pass: string, listen: string, cert: string, key: string): string
  {
    Unlines(heading + Credentials(user, pass, listen, cert, key))
  }

  lemma {:induction false} TrimRightKeeps(a: string, b: string)
    requires a != "" && !IsSpace(a[|a| - 1])
    ensures TrimRight(a + b) == a + TrimRight(b)
  {
    if b == "" {
      assert a + b == a;
    } else if IsSpace(b[|b| - 1]) {
      assert (a + b)[..|a + b| - 1] == a + b[..|b| - 1];
      TrimRightKeeps(a, b[..|b| - 1]);
    }
  }

  predicate IsKey(key: string) {
    key != "" && (forall k :: 0 <= k < |key| ==> 'a' <= key[k] <= 'z')
  }

  // A line that sets a key, with spaces before it and around it or without,
  // offends exactly if the key is one of the two that redirect.
  lemma KeyLineOffends(indent: string, key: string, gap: string, value: string)
    requires AllSpaces(indent) && AllSpaces(gap) && '=' !in gap && IsKey(key)
    ensures Offends(indent + KeyLine(key + gap, value)) <==> key == "miningaddr" || key == "generate"
  {
    hide IsSpace, TrimLeft, TrimRight, TrimSpace;
    var line := KeyLine(key + gap, value);
    KeyHasNoSpace(key);
    TrimmedLine(indent, key + gap + ['='], value);
    var rest := TrimRight(value);
    assert line == key + gap + ['='] + value;
    assert (key + gap + ['='] + rest)[..1] == [key[0]];
    assert key + gap + ['='] + rest == (key + gap) + ['='] + rest;
    SplitAt(key + gap, rest, '=');
    SplitWhole(key + gap, '=');
    TrimPadded("", key, gap);
    assert "" + key + gap == key + gap;
  }

  lemma KeyHasNoSpace(key: string)
    requires IsKey(key)
    ensures !IsSpace(key[0]) && !IsSpace(key[|key| - 1]) && !IsSpace('=')
    ensures '=' !in key && key[0] != ';' && key[0] != '#'
  {
    Blanks(key[0]);
    Blanks(key[|key| - 1]);
    Blanks('=');
  }

  lemma TrimmedLine(indent: string, start: string, value: string)
    requires AllSpaces(indent) && start != "" && !IsSpace(start[0]) && !IsSpace(start[|start| - 1])
    ensures TrimSpace(indent + (start + value)) == start + TrimRight(value)
  {
    hide IsSpace;
    TrimLeftOff(indent, start + value);
    TrimRightKeeps(start, value);
  }

  lemma CommentsDoNotOffend(line: string)
    requires HasPrefix(line, ";") || HasPrefix(line, "#")
    ensures !Offends(line)
  {
    var c := line[0];
    Blanks(c);
    TrimRightKeeps([c], line[1..]);
    assert line == [c] + line[1..];
  }

  predicate OneLine(line: string) {
    '\n' !in line
  }

  lemma CredentialsAreFine(user: string, pass: string, listen: string, cert: string, key: string)
    requires OneLine(user) && OneLine(pass) && OneLine(listen) && OneLine(cert) && OneLine(key)
    ensures var lines := Credentials(user, pass, listen, cert, key);
            forall k :: 0 <= k < |lines| ==> !Offends(lines[k]) && OneLine(lines[k])
  {
    OwnKeys();
    hide Offends, OneLine, KeyLine, IsKey;
    FineLine("rpcuser", user);
    FineLine("rpcpass", pass);
    FineLine("rpclisten", listen);
    FineLine("rpccert", cert);
    FineLine("rpckey", key);
  }

  lemma CredentialLines(user: string, pass: string, listen: string, cert: string, key: string)
    ensures Credentials(user, pass, listen, cert, key) ==
            ["rpcuser=" + user, "rpcpass=" + pass, "rpclisten=" + listen, "rpccert=" + cert, "rpckey=" + key]
  {
    assert "rpcuser" + ['='] == "rpcuser=" && "rpcpass" + ['='] == "rpcpass=";
    assert "rpclisten" + ['='] == "rpclisten=" && "rpccert" + ['='] == "rpccert=" && "rpckey" + ['='] == "rpckey=";
  }

  lemma OwnKeys()
    ensures IsKey("rpcuser") && IsKey("rpcpass") && IsKey("rpclisten") && IsKey("rpccert") && IsKey("rpckey")
  {
  }

  lemma FineLine(key: string, value: string)
    requires IsKey(key) && |key| < 10 && |key| != 8 && OneLine(value)
    ensures !Offends(KeyLine(key, value)) && OneLine(KeyLine(key, value))
  {
    KeyLineOffends("", key, "", value);
    assert "" + KeyLine(key + "", value) == KeyLine(key, value);
  }

  // Whatever the credentials, as long as they hold no line break, the file
  // monvark writes below its heading passes its own check at the next start.
  lemma OwnConfIsAccepted(heading: seq<string>, user: string, pass: string, listen: string, cert: string, key: string)
    requires forall k :: 0 <= k < |heading| ==> HasPrefix(heading[k], ";") && OneLine(heading[k])
    requires OneLine(user) && OneLine(pass) && OneLine(listen) && OneLine(cert) && OneLine(key)
    ensures var lines := Split(MondConf(heading, user, pass, listen, cert, key), '\n');
            && NoneOffends(lines)
            && lines == heading + ["rpcuser=" + user, "rpcpass=" + pass, "rpclisten=" + listen, "rpccert=" + cert,
                                   "rpckey=" + key, ""]
  {
    CredentialsAreFine(user, pass, listen, cert, key);
    EmptyDoesNotOffend();
    hide Offends, Credentials, Split, Unlines, HasPrefix;
    SplitUnlines(heading + Credentials(user, pass, listen, cert, key));
    CredentialLines(user, pass, listen, cert, key);
    forall k | 0 <= k < |heading|
      ensures !Offends(heading[k])
    {
      CommentsDoNotOffend(heading[k]);
    }
  }

  lemma EmptyDoesNotOffend()
    ensures !Offends("")
  {
  }
}
