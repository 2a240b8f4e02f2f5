# GPIO 16x2 LCD driver, modelled in Dafny

`lcd-mod.c` is a Linux kernel module for a Raspberry Pi. It drives an
HD44780-style 16x2 character display over seven GPIO lines: RS (GPIO 4),
RW (17), E (18) and DB4..DB7 (22..25). It runs the display's 4-bit bus mode,
where each byte is two nibbles, each latched by one pulse on Enable.

On load, the module:
- registers a character device;
- creates a device class and a device node;
- requests the seven lines and makes them outputs;
- runs the display's power-on sequence, which ends by showing the character `Q`.

The device file supports `open` and `release`; `ioctl` is refused. On unload,
the module clears the display, frees the lines and unregisters everything.

The model follows the driver file by file:

| module | file | what it holds |
|---|---|---|
| `Platform` | platform.dfy | The kernel services as an abstract machine, the class `Kernel`. Every call (`gpio_request`, `gpio_free`, `gpio_direction_output`, `gpio_set_value`, the delays, the spinlock, `register_chrdev`, `class_create`, `device_create` and their inverses) appends one `Event` to `trace` and updates `state`. `state` is the replay `Run` of the calls. The kernel's answers come from a fixed `Oracle`. |
| `Commands` | commands.dfy | The ten byte tables. Each is kept, as the driver keeps it, as eight 0/1 entries, most-significant first. |
| `Display` | display.dfy | A reference model of an idealised controller, already in 4-bit mode and in write mode. It latches DB7..DB4 on each falling edge of E, and uses RS to tell an instruction from a character. Two nibbles make one byte. |
| `Transport` | transport.dfy | `lcd_write`. |
| `Initializer` | initializer.dfy | `lcd_init`. |
| `Pins` | pins.dfy | `req_gpio`, and the seven `gpio_free` calls that release and unload share. |
| `Lifecycle` | lifecycle.dfy | `lcd_open`, `lcd_release`, `lcd_ioctl`, module load (`rpigpio_lcd_minit`) and unload (`rpigpio_lcd_mcleanup`). |

Each driver routine is a method on `Kernel`. It is proved to make exactly the
calls given by a function (`WriteEvents`, `InitEvents`, `ReqGpioEvents`,
`MinitEvents`, …), and to leave the state those calls produce. The
routine's properties are then proved about that function. One example: what
the display receives is stated through `Display`, which looks only at line
levels.

The model keeps the driver's behaviour as written, including these defects:
- **Unwind after `req_gpio` fails.** The unwind destroys the class but not the device created in it. It keeps the lines already granted. It returns `PTR_ERR(dev)` of a valid device pointer, which is not an error code (`MinitReqGpioFails`).
- **Spinlock initialised too late.** `spin_lock_init` runs after `lcd_init` has already taken and released the lock (`LockInitAfterLock`).
- **Release ignores other users.** `lcd_release` frees all seven lines on every close, whether or not another opener still uses them (`ReleaseFrees`).
- **Unload after a release.** Unload writes `clear` to lines that a release may already have given back (`CleanupAfterRelease`).

## Model

| member | source | states |
|---|---|---|
| Commands.TableValues | lcd-mod.c:47-56 | Each table denotes its byte: reset 0x00, clear 0x01, home 0x02, entry 0x06, displayon 0x0F, displayoff 0x08, functionset 0x20, startup1 0x33, startup2 0x32, and `a` 0x51, which is 'Q'. |
| Commands.TableBits | lcd-mod.c:47-56 | Each table is exactly the 8-bit, most-significant-first string of its byte. |
| Commands.BitsOfValueOf | lcd-mod.c:42-46 | The 0/1 array form loses nothing: an array is recovered from the number it denotes. |
| Commands.BitsOf | lcd-mod.c:42-46 | The n-entry array for a value below 2^n has n entries and denotes that value. |
| Platform.Kernel.GpioRequest | lcd-mod.c:158 | A request is granted exactly when the oracle does not refuse the line and nobody holds it yet. A granted line becomes held. |
| Platform.Kernel.GpioFree | lcd-mod.c:87 | The line is no longer held and no longer an output, whoever held it. |
| Platform.Kernel.GpioDirectionOutput | lcd-mod.c:188 | The line becomes an output at the given level. |
| Platform.Kernel.GpioSetValue | lcd-mod.c:133 | The line's level becomes the value. Nothing else changes. |
| Platform.Kernel.Udelay | lcd-mod.c:138 | A wait of the given microseconds is logged. The state is unchanged. |
| Platform.Kernel.Mdelay | lcd-mod.c:106 | A wait of 1000 times the given milliseconds, in microseconds, is logged. The state is unchanged. |
| Platform.Kernel.SpinLock | lcd-mod.c:86 | A lock is logged. The state is unchanged. |
| Platform.Kernel.SpinUnlock | lcd-mod.c:94 | An unlock is logged. The state is unchanged. |
| Platform.Kernel.SpinLockInit | lcd-mod.c:238 | A lock initialisation is logged. The state is unchanged. |
| Platform.Kernel.RegisterChrdev | lcd-mod.c:209 | Returns the oracle's major number. The device counts as registered only when it is not negative. |
| Platform.Kernel.UnregisterChrdev | lcd-mod.c:217 | The character device is no longer registered. |
| Platform.Kernel.ClassCreate | lcd-mod.c:215 | Returns the oracle's class pointer. The class exists unless that pointer is an error. |
| Platform.Kernel.ClassDestroy | lcd-mod.c:224 | The class no longer exists. |
| Platform.Kernel.DeviceCreate | lcd-mod.c:222 | Returns the oracle's device pointer. The device exists unless that pointer is an error. |
| Platform.Kernel.DeviceDestroy | lcd-mod.c:256 | The device no longer exists. |
| Transport.LcdWrite | lcd-mod.c:127-151 | Returns 0. Makes exactly the 16 calls of `WriteEvents`: DB7..DB4 take entries 0..3, then E pulses 1/50 us/0/50 us; DB7..DB4 take entries 4..7, then the same pulse. The state is their replay. |
| Transport.LatchNibble | lcd-mod.c:133-140 | One half of lcd_write: the four data-line writes, DB7 first, then one Enable pulse. |
| Transport.WriteExit | lcd-mod.c:141-148 | After a write, E is 0 and DB7..DB4 hold the low nibble, entries 4..7. RS, RW, ownership, directions and registrations are unchanged. |
| Transport.WriteDelivers | lcd-mod.c:128-148 | The controller latches exactly two nibbles, high then low, under the caller's RS. It receives exactly one byte: the table's value, as an instruction when RS is 0 and as a character when RS is 1. |
| Transport.WriteCarriesByte | lcd-mod.c:133-144 | For a byte b, line DB(4+i) carries bit 4+i of b in the first nibble and bit i in the second. |
| Transport.WriteTouches | lcd-mod.c:133-148 | lcd_write only sets E and DB4..DB7 and only waits 50 us. It never writes RS or RW and never requests, frees or reconfigures a line. |
| Transport.WritePulses | lcd-mod.c:133-148 | E is written at positions 4, 6, 12 and 14 and nowhere else. Positions 4-7 and 12-15 are each one full pulse, each after that nibble's four data writes. |
| Initializer.LcdInit | lcd-mod.c:104-124 | Returns 0. Makes exactly the calls of `InitEvents`: lock; 15 ms; reset; 35 ms; startup1, startup2, functionset, displayoff, clear, entry, displayon, home; RS high; 35 ms; `a`; 35 ms; RS low; unlock. The state is their replay. |
| Initializer.InitShape | lcd-mod.c:104-124 | The lock is taken first and released last. The 15 ms wait comes before reset and the 35 ms wait after it. Between those points neither the lock nor RS is touched, except to raise RS, with 35 ms on each side, around `a` alone and to lower it before unlocking. |
| Initializer.InitReceived | lcd-mod.c:104-124 | Started with RS low, lcd_init makes the controller receive exactly ten bytes: nine instructions, then `a` as a character. RS ends low, and nothing but line levels changes. |
| Initializer.InitBytesAre | lcd-mod.c:107-119 | Those ten bytes are 0x00, 0x33, 0x32, 0x20, 0x08, 0x01, 0x06, 0x0F, 0x02 and the character 0x51. |
| Initializer.InitSends | lcd-mod.c:104-124 | With RS low at the start, the display decodes exactly: instructions 0x00, 0x33, 0x32, 0x20, 0x08, 0x01, 0x06, 0x0F, 0x02, then the character 0x51 ('Q'). |
| Initializer.InitKeeps | lcd-mod.c:104-124 | lcd_init changes neither which lines are held or are outputs nor any registration, and it leaves RS low. |
| Pins.FirstRefused | lcd-mod.c:158-185 | The index of the first line, in request order, that is refused or already held (7 if none). Every line before it is grantable. |
| Pins.ReqGpio | lcd-mod.c:154-197 | Returns `ReqGpioResult`. Makes exactly the calls of `ReqGpioEvents`: requests for RS, RW, E, DB4, DB5, DB6, DB7 in that order, up to and including the first refused one; if none is refused, seven direction settings to output 0. The state is their replay. |
| Pins.RequestLine | lcd-mod.c:158-161 | One request block. It succeeds exactly when the line is grantable. On failure the whole req_gpio result is -1, with the calls and state of `ReqGpioEvents`. |
| Pins.SetOutputs | lcd-mod.c:188-194 | The seven direction settings, in request order, each to output at level 0. |
| Pins.OutputLine | lcd-mod.c:188 | One direction setting. |
| Pins.ReqGpioSucceedsIff | lcd-mod.c:154-197 | req_gpio returns 0 if and only if none of the seven lines is refused or already held. Otherwise it returns -1. |
| Pins.ReqGpioRefused | lcd-mod.c:158-185 | When line f is the first refused: the result is -1; exactly lines 0..f-1 become held; no direction or level changes; every call is a request for lines 0..f only, so later lines are never requested. |
| Pins.ReqGpioGranted | lcd-mod.c:186-196 | When all seven are granted: the result is 0, and all seven lines are held, are outputs and are at level 0. |
| Pins.ReqGpioCalls | lcd-mod.c:154-197 | req_gpio calls only gpio_request and gpio_direction_output: no delay, no lock and no level change. |
| Pins.DirectedOnly | lcd-mod.c:188-194 | The direction block makes only direction calls. |
| Pins.GrantedRun | lcd-mod.c:158-185 | The first n granted requests add exactly the first n lines to the held set. |
| Pins.DirectedRun | lcd-mod.c:188-194 | The first n direction settings make exactly the first n lines outputs at level 0. |
| Pins.FreeLines | lcd-mod.c:87-93 | The seven gpio_free calls, in request order. |
| Pins.FreeLine | lcd-mod.c:87 | One gpio_free call. |
| Pins.FreedRun | lcd-mod.c:87-93 | Freeing the first n lines removes exactly those lines from the held and output sets. |
| Lifecycle.LcdData.constructor | lcd-mod.c:71-74 | The driver record starts with major number 0 and class NULL. |
| Lifecycle.LcdIoctl | lcd-mod.c:76-78 | Every command is refused with -EINVAL (-22), a negative result, and nothing changes. |
| Lifecycle.LcdOpen | lcd-mod.c:80-82 | open always succeeds with 0 and changes nothing. |
| Lifecycle.LcdRelease | lcd-mod.c:84-96 | Returns 0. Makes exactly these calls: lock, the seven frees, unlock. |
| Lifecycle.ReleaseRun | lcd-mod.c:84-96 | After release, exactly the seven lines are dropped from the held and output sets. Nothing else changes. |
| Lifecycle.ReleaseFrees | lcd-mod.c:84-96 | After any release no line of the display is held or an output, whoever opened it. A second release changes nothing. |
| Lifecycle.Minit | lcd-mod.c:200-241 | Returns `MinitResult` and makes exactly the calls of `MinitEvents`, whose cases are chrdev failure, class failure, device failure, req_gpio failure and success. It records the major number, and the class pointer once registration succeeds. |
| Lifecycle.MinitChrdevFails | lcd-mod.c:209-213 | A negative major number is returned as is, and the state is unchanged. |
| Lifecycle.MinitClassFails | lcd-mod.c:215-219 | A class_create error unregisters the character device and returns the class's error code. |
| Lifecycle.MinitDeviceFails | lcd-mod.c:222-227 | A device_create error destroys the class, unregisters the character device and returns the device's error code. |
| Lifecycle.RegisteredRun | lcd-mod.c:209-222 | After three successful registrations, the character device, class and device all exist. |
| Lifecycle.LoadRefused | lcd-mod.c:209-230 | If req_gpio is first refused at line f during load, everything is registered and lines 0..f-1 are held. |
| Lifecycle.MinitReqGpioFails | lcd-mod.c:230-234 | On req_gpio failure, load destroys the class and unregisters, but the device stays and lines 0..f-1 stay held. It returns PTR_ERR of a valid device pointer, non-negative unless the address reads negative. |
| Lifecycle.LoadGranted | lcd-mod.c:209-230 | When req_gpio succeeds, everything is registered, and all seven lines are held, outputs and at level 0. |
| Lifecycle.MinitSucceeds | lcd-mod.c:229-240 | If every step succeeds, load returns 0 and makes the load calls, then lcd_init, then spin_lock_init. It leaves the character device, class and device registered and all seven lines held as outputs. |
| Lifecycle.LoadedRun | lcd-mod.c:229-240 | The state after a fully successful load, from its calls. |
| Lifecycle.MinitDisplays | lcd-mod.c:235 | In a successful load RS is low when lcd_init starts. The display receives exactly the nine set-up instructions, then 'Q'. |
| Lifecycle.LockInitAfterLock | lcd-mod.c:235-238 | In a successful load, the calls before lcd_init (registration, class, device, req_gpio) contain no call on the spinlock, so the first call on it is lcd_init's lock. spin_lock_init is the very last call. |
| Lifecycle.LoadCalls | lcd-mod.c:209-230 | Load makes no call on the spinlock before lcd_init, whatever the kernel answers. |
| Lifecycle.Mcleanup | lcd-mod.c:244-261 | Makes exactly these calls: write `clear`, free the seven lines, destroy the device, destroy the class, unregister the recorded major number. |
| Lifecycle.TeardownRun | lcd-mod.c:256-258 | The three teardown calls leave nothing registered or created. |
| Lifecycle.CleanupRun | lcd-mod.c:244-261 | After unload nothing is registered or created, and the seven lines are dropped from the held and output sets, whatever held them before. |
| Lifecycle.CleanupAfterRelease | lcd-mod.c:244-253 | Unload's first 16 calls are the `clear` write. Every line those calls set is already free after a release. |

## Left out

- Every `printk` is left out. Only the control flow around it is modelled.
- `lcd_devnode` (lcd-mod.c:98-101) is left out, along with its installation at lcd-mod.c:220. It only sets the device node's permission mode, which the model does not represent.
- The `file_operations` table, `MODULE_*` declarations and `module_init`/`module_exit` are left out. They are wiring, not behaviour. `lcd-mod.mod.c` is generated build metadata and is not part of this model.
- Device and class names, `MKDEV` and the `THIS_MODULE` owner are left out. So is the name mismatch between `register_chrdev(…, "gpio_lcd", …)` and `unregister_chrdev(…, "lcd_gpio")`: the model identifies the character device by its major number alone.
- Timing is left out. `udelay` and `mdelay` are logged as waits of so many microseconds, and no clock advances. Whether the waits meet the display's timing is therefore not proved, only their placement and lengths.
- Concurrency is left out. The spinlock is modelled only as logged lock, unlock and init calls, so the proofs are about a single thread and say nothing about interleaving with other openers. That is why the defect about initialisation order is stated as an order of calls.
- Kernel internals are left out. Whether `gpio_request`, `register_chrdev`, `class_create` and `device_create` succeed is a fixed `Oracle`, except that a line already held is never granted again. Error codes are kept abstract.
- Platform.PtrErr: the value PTR_ERR yields for a valid pointer is the pointer's address, kept abstract as an integer. Its actual sign is not modelled.
- The controller's power-up in 8-bit mode is left out. A real HD44780 reads each of the first nibbles of the reset sequence as an instruction of its own. `Display` instead pairs nibbles from the first falling edge of E, as a controller already in 4-bit mode would. It also ignores RW, which the driver never drives away from the 0 that req_gpio sets. So what the display receives is stated for that idealised controller.
- Line data is modelled as the driver's own 0/1 arrays (`seq<Bit>`), not as `uint8_t` values.
- Transport.LatchNibble, Pins.RequestLine, Pins.OutputLine, Pins.SetOutputs, Pins.FreeLine and Pins.FreeLines are helpers. Each is one of the blocks the driver writes out line by line. The calls they make and their order are the driver's.
- Platform.Kernel: the class does not keep an invariant tying `state` to a replay of the whole `trace` from boot. Each method instead states its new state as the replay of its own calls from the old state.
- Lifecycle.Mcleanup: the method states only the calls it makes and the resulting state. What unload does is stated by CleanupRun and CleanupAfterRelease.
