/**
 * The `Commander` class (task.cpp:40-288): one mutable field, the shell
 * command, set by the menu switch or rebuilt from a received buffer.
 */
module Commands {
  import opened Basics
  import opened Templates

  class Commander {
    /** The terminal command. */
    var command: string
    /** Every string handed to the shell by `ExecuteCommand`, oldest first. */
    ghost var executed: seq<string>

    /** `Commander()`: the placeholder command. */
    constructor ()
      ensures command == DEFAULT_COMMAND && executed == []
    {
      command := DEFAULT_COMMAND;
      executed := [];
    }

    /** `Commander(string usrCommand)`. */
    constructor FromCommand(usrCommand: string)
      ensures command == usrCommand && executed == []
    {
      command := usrCommand;
      executed := [];
    }

    /**
     * `setCommand(commandNumber)` with the words the user types passed in.
     * Choices 1-10 replace the command by their template, 11 asks the
     * process to exit, anything else leaves the command as it was.
     */
    method SetCommand(choice: int, first: string, second: string) returns (exit: bool)
      modifies this`command
      ensures exit <==> choice == 11
      ensures command == CommandAfter(choice, first, second, old(command))
      ensures !(1 <= choice <= 10) ==> command == old(command)
    {
      exit := false;
      match Select(choice, first, second)
      case Command(text) =>
        command := text;
      case Exit =>
        exit := true;
      case Undefined =>
    }

    /**
     * `setCommandFromBuffer(buff, size)`: discards the old command and
     * appends the first `size` characters of the buffer one at a time.
     */
    method SetCommandFromBuffer(buff: array<char>, size: nat)
      requires size <= buff.Length
      modifies this`command
      ensures command == buff[..size]
    {
      command := "";
      for i := 0 to size
        invariant command == buff[..i]
      {
        command := command + [buff[i]];
      }
    }

    method GetCommand() returns (c: string)
      ensures c == command
    {
      c := command;
    }

    /**
     * `executeCommand()`: hands `command.c_str()` to the shell. The shell
     * itself is outside the model; the ghost log records what it was given.
     */
    method ExecuteCommand()
      modifies this`executed
      ensures executed == old(executed) + [CStr(command)]
    {
      executed := executed + [CStr(command)];
    }
  }
}
