# Console-App-PIPE-FIFO in Dafny

A model of the console program in `task.cpp`. A menu builds a shell command from the user's
choice, and the parent process hands that command to a forked child, which runs it. The
command travels over an anonymous pipe. Its length travels separately, as decimal text
(`std::to_string` on the sending side, `std::stoi` on the receiving side), over a named FIFO,
so the child knows how many pipe bytes to read.

The model is split by component:

- `Basics` (basics.dfy): a `Result` type, and `CStr`, the view of a `std::string` through
  `c_str()`. It matters because `main` copies the command through `c_str()`, which cuts it at
  the first NUL.
- `Decimal` (decimal.dfy): `to_string` and `stoi` as pure functions. `stoi` skips leading
  "C"-locale white space, takes one optional sign and the longest run of digits after it, and
  ignores what follows. It fails with `invalid_argument` when there are no digits and with
  `out_of_range` outside 32-bit `int`. The module also has the `int` to `size_t` conversion
  and the round-trip lemmas.
- `Templates` (templates.dfy): the `setCommand` switch as a pure function `Select` over the
  menu number and the words the user types. Beside it is a reference reading of each command
  as shell words (bare or double-quoted), with lemmas saying that the strings are exactly
  those words. The typed words, which `cin >>` reads without spaces, can be read back from the command text.
- `Commands` (commands.dfy): the `Commander` class, whose one field `command` its methods
  update in place. `setCommandFromBuffer` is a loop proved against `buff[..size]`.
- `Channels` (channels.dfy): `myPipe` and `myFifo` as classes whose state is the kernel's byte
  queue (`queued`). Writes append to it, and reads take bytes from its front. Throughout the
  model, each Dafny `char` stands for one C++ `char`, that is one byte, so a string's length
  is its byte count, as `size()` gives it. The
  string-to-buffer copy loops of both `write_data_from_str` methods are kept.
- `Transfer` (transfer.dfy): the parent's half of `main` (`Produce`), the child's half
  (`Consume`), `Transmit`, and `Run`. `Transmit` sends one command over fresh channels, and
  `Run` is the whole program: menu first, then `Transmit`. `Transmit` proves that the child
  rebuilds exactly what the parent sent, for any command whose length fits an `int`, the
  empty command included, and hands exactly that text to the shell. The
  length is decimal text that `stoi` parses back to the byte count for every count up to
  `INT_MAX`.

In `Transmit`, the two processes are two sequential steps over shared channel objects: the parent
writes everything first, then the child reads. In the source, the child's `wait(nullptr)`
(task.cpp:437) returns at once, because the child has no children of its own. What actually
orders the two sides is that the child's FIFO and pipe reads block until data arrives.

## Model

| member | source | states |
|---|---|---|
| `Basics.CStr` | task.cpp:471 | the string seen through `c_str()` is the longest NUL-free prefix: a prefix of the original, without NUL, and followed by a NUL whenever it is shorter |
| `Basics.CStrWithoutNul` | task.cpp:471 | a command without NUL passes through `c_str()` unchanged |
| `Decimal.ToString` | task.cpp:475 | `to_string` of an integer is non-empty, starts with `-` exactly when the integer is negative, and is all decimal digits after that sign; the digits are those of `NatToString` of the magnitude, so there is no leading zero; `Decimal.StoiOfToString` proves `stoi` reads it back |
| `Decimal.NatToString` | task.cpp:475 | `to_string` of a non-negative count is a non-empty run of decimal digits with no leading zero (its first digit is `0` only for 0) |
| `Decimal.DigitsValueOfNatToString` | task.cpp:444 | reading back the digits `to_string` wrote gives the number itself, for every `n >= 0` |
| `Decimal.Stoi` | task.cpp:444 | `stoi` succeeds only with a value inside `int` range, fails with `invalid_argument` exactly when no digit follows the white space and optional sign, and gives a negative value only after a minus sign |
| `Decimal.ToSizeT` | task.cpp:444 | storing the parsed `int` in `size_t N` gives a value below 2^64 that keeps non-negative values and is congruent to negative ones modulo 2^64, i.e. `v + 2^64` |
| `Decimal.StoiOfToString` | task.cpp:444 | `stoi(to_string(n) + rest)` is `n` for every `n` in `int` range, and `out_of_range` otherwise, for any trailing text that does not start with a digit |
| `Decimal.TruncatedNatToStringOutOfRange` | task.cpp:440-444 | in the model's reading of up to 1024 bytes of length text, a decimal text cut off after 11 or more characters still reads as `out_of_range` (the source's 8-byte read is different: see `Transfer.TakenToken` under Left out) |
| `Templates.Select` | task.cpp:84-246 | choice 11 is the exit request and only it; choices outside 1-11 are undefined; choices 1-10 build a command |
| `Templates.CommandAfter` | task.cpp:84-246 | after a menu choice the command is that choice's template; any choice outside 1-10 leaves the command as it was |
| `Templates.CommandAfterWithoutNul` | task.cpp:84-246 | starting from the default command, typed words without NUL leave a command without NUL, whatever the choice |
| `Templates.SelectRendersWords` | task.cpp:95-229 | each of choices 1-10 builds exactly its intended shell words joined by single spaces: names bare in choices 1 and 2 and for the mode of choice 7, every other path in double quotes, e.g. choice 3 is `cp "f" "d/f"` |
| `Templates.SelectInjective` | task.cpp:93-229 | for typed words without a space, which is every word `cin >>` reads, the command text of choices 1-10 determines every word the choice reads, even words that contain double quotes |
| `Commands.Commander.constructor` | task.cpp:46 | a default commander holds `echo "Invalid value."` and has run nothing |
| `Commands.Commander.FromCommand` | task.cpp:48 | a commander built from a string holds that string |
| `Commands.Commander.SetCommand` | task.cpp:78-247 | the command becomes the choice's template; choice 11 reports the exit request; any choice outside 1-10 leaves the command unchanged |
| `Commands.Commander.SetCommandFromBuffer` | task.cpp:249-264 | the command becomes exactly the first `size` buffer characters, in order; the old command is discarded |
| `Commands.Commander.GetCommand` | task.cpp:266 | returns the current command |
| `Commands.Commander.ExecuteCommand` | task.cpp:268 | the shell is given the command as `c_str()` shows it (recorded in a ghost log) |
| `Channels.Pipe.constructor` | task.cpp:303-318 | a new pipe holds no bytes |
| `Channels.Pipe.WriteData` | task.cpp:320-326 | the first `size` buffer bytes are appended to the pipe, and all `size` are reported written |
| `Channels.Pipe.WriteDataFromStr` | task.cpp:328-341 | `size` bytes are appended to the pipe, the first `data.size()` of them equal to the string; with `size == data.size()` the appended bytes are the string exactly |
| `Channels.Pipe.ReadData` | task.cpp:343-348 | the oldest `min(size, queued)` bytes are removed from the pipe into the front of the buffer, the rest of the buffer is untouched, and their number is returned |
| `Channels.Fifo.constructor` | task.cpp:369-375 | a new FIFO holds no bytes |
| `Channels.Fifo.WriteData` | task.cpp:377-381 | the buffer's bytes are appended to the FIFO |
| `Channels.Fifo.WriteDataFromStr` | task.cpp:389-403 | the string's bytes, in order, are appended to the FIFO |
| `Channels.Fifo.ReadData` | task.cpp:383-387 | the oldest bytes, up to the buffer's length, are removed from the FIFO into the front of the buffer, and their number is returned |
| `Transfer.TakenToken` | task.cpp:440-443 | the length text the child reads is a prefix of what the FIFO holds, at most 1024 bytes, and all of it when it fits |
| `Transfer.LengthTokenParses` | task.cpp:440-475 | the length text of an `n`-byte payload reads back as `n` for every `0 <= n <= INT_MAX`, and as `out_of_range` above it |
| `Transfer.Produce` | task.cpp:471-478 | the FIFO gains the decimal text of the payload's byte count and the pipe gains the payload, the command up to its first NUL |
| `Transfer.Consume` | task.cpp:440-452 | the child takes the length text first; a failed `stoi` leaves the pipe untouched; otherwise it takes exactly the announced number of pipe bytes, rebuilds them as the new commander's command and runs it, or fails if the pipe holds fewer |
| `Transfer.Transmit` | task.cpp:440-478 | for any command, the empty one included, the child rebuilds exactly the text the parent sent (the command up to its first NUL) whenever its length fits an `int`, and fails with `out_of_range` otherwise; a NUL-free command whose length fits an `int` comes back unchanged; the shell is handed exactly the rebuilt command, once, and nothing when the transfer fails (ghost log `ran`) |
| `Transfer.Run` | task.cpp:412-483 | choice 11 ends the run; otherwise the sent command is the choice's template (or the default), and the child's result is that of `Transmit` on it; for typed words without NUL, when the command's length fits an `int`, the rebuilt command is the menu's command itself |

## Left out

- Process creation and synchronisation (`fork`, `wait`, task.cpp:420-437): the two processes
  are two sequential steps, the parent's entirely before the child's. Interleavings, blocking
  reads, and the failed-`fork` branch are not modelled. Because of that, the ordering of the
  parent's two writes in time (FIFO at task.cpp:475, then pipe at task.cpp:478) cannot be
  observed in the model. What is proved is the child's side: it takes the length text first,
  and that text sizes its pipe read (`Transfer.Consume`).
- Channels.Fifo.WriteData: writes the whole buffer, where the source writes `sizeof(data)`
  bytes (task.cpp:380). That is the size of a pointer, 8 bytes on a 64-bit target, and reads
  past a shorter buffer (undefined behaviour).
- Channels.Fifo.WriteDataFromStr: appends exactly the string. In the source it goes through
  `write_data`, so it writes the first 8 bytes of its buffer whatever the string's length.
  The length text is therefore modelled as exactly `to_string(n)`.
- Channels.Fifo.ReadData: reads up to the buffer's length, where the source reads
  `sizeof(data)` = 8 bytes (task.cpp:386). The child's `string str(data)` then relies on a
  NUL in the uninitialised `data[1024]`, which is not guaranteed. The model takes the bytes
  read as the length text.
- Transfer.TakenToken: takes up to 1024 bytes of length text, where the source takes at most
  8. The consequence in the source is that a payload of 10^8 bytes or more has 9 or more
  length digits, and only the first 8 reach the child. Because `string str(data)` then reads
  on into the uninitialised rest of `data` until a NUL (see `Channels.Fifo.ReadData`), `stoi`
  returns a wrong length: smaller, larger, or `out_of_range`. A payload below 10^7 bytes has a length text shorter than 8 bytes, and the source
  writes stack bytes past it. The model covers neither case. In the model the 1024-byte cap
  matters only for payloads of 10^1024 bytes or more, which is where
  `Decimal.TruncatedNatToStringOutOfRange` and `Transfer.LengthTokenParses` apply it.
- Channels.Pipe.ReadData: returns what the pipe holds, up to the request. Short reads caused
  by the kernel (signals, partial deliveries) are not modelled, and neither is blocking on an
  empty pipe or `read` returning -1 (task.cpp:347, 386).
- Channels.Pipe.WriteData: appends all `size` bytes and reports them written. Short writes
  and `write` returning -1 (task.cpp:325, 380) are not modelled. The source ignores both
  return values.
- Transfer.Consume: when the pipe holds fewer bytes than announced, the source goes on with
  indeterminate buffer contents. The model reports `ShortPayload` instead. With the parent's
  writes in place this cannot happen for lengths up to `INT_MAX` (`Transfer.Transmit`).
- `stoi`'s exceptions are not caught in the source and would end the child. The model returns
  them as `BadLength` errors.
- Syscalls (`pipe`, `mkfifo`, `umask`, `open`, `read`, `write`, `close`, `unlink`, destructors
  `~myPipe`/`~myFifo`): only their effect on the byte queues is modelled. The FIFO's file
  name, its permissions, the failure of `pipe()` with `exit(-1)` and removing `size.fifo`
  are left out.
- `system()` (task.cpp:268) is a foreign shell call. The model only records, in a ghost log,
  the string the shell is given.
- Console I/O: `printCommandList`, the prompts, `cin >>` and the `>>`/`<<` operators
  (task.cpp:50-76, 270-287). The menu number and the typed words are parameters. A failed
  read of the menu number (which stores 0 and so hits the default case) is not modelled
  separately.
- Typed words: each `cin >>` (task.cpp:93-225) reads one word without white space, or leaves
  the string empty at end of input (choice 1 then builds `mkdir `).
  `Templates.Select`, `Transfer.Run` and the other members accept any strings, and so cover
  more than the program can receive. `Templates.SelectInjective` assumes only what it
  needs, that the words contain no space character (`Templates.NoSpace`).
- `exit(0)` for choice 11 is the `exit` result of `SetCommand` and the `Exited` outcome of
  `Run`. In the source, the child then stays blocked on the FIFO.
- Integer widths: the loop counters of the copy loops are `int` in the source, and
  `ssize_t`/`size_t` are 64-bit. The model uses unbounded indices and does not model the
  overflow of an `int` counter past 2^31-1 bytes. The `size_t` wrap of a negative `stoi`
  result is modelled (`Decimal.ToSizeT`).
- The variable-length stack arrays (`char buff[size]`, `char buff[N]`) are modelled as heap
  arrays. Stack exhaustion for large sizes is not modelled.
