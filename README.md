# Battle Royale: ammunition, weapon record and UDP peer state in Dafny

This project models the small amount of decision logic in the Battle Royale iOS game, which is otherwise mostly UIKit layout. It covers three parts:

- **The battle screen's ammunition state machine** (`Battle`). A tap fires one bullet from a magazine of 10. A tap on an empty magazine starts a reload. While the reload is pending every tap is ignored. When the reload timer fires, the magazine is refilled to 10 and the reload ends. The view controller is a class (`Battle.BattleController`) with the fields `bulletCount`, `isReloading`, the number shown on the bullet label, and the number of reload timers that have been scheduled and have not yet fired. Its methods `Shoot` and `ReloadComplete` are proved against the pure functions `Shot` and `Reloaded` on the `Ammo` state. The lemmas about sequences of taps are stated over those functions. The five-second timer is not modelled as time. It is the separate event `ReloadComplete`, which can only happen after `Shoot` has scheduled it.
- **The weapon record** (`Guns.Gun`). The constructor copies its arguments into the fields and starts `ammoCount` equal to `magazineSize`. The `Double` fields and the image are opaque values, with no arithmetic on them.
- **The UDP messaging service's peer state** (`Udp`). `ConfigurePeer` overwrites the peer host and port and installs a new connection. `Send` does nothing when no connection is configured; otherwise it hands the message to the connection. Here a connection is a record of its endpoint plus a serial number, so that each newly created connection has its own identity. Handing a message over means appending a datagram to a log of everything sent. `LocalIPAddress` scans the list of network interfaces in order. It returns the address of the first IPv4 interface named `en0`, or nothing when there is no such interface or the interface query fails.

## Model

| member | source | states |
|---|---|---|
| `Battle.Shot` | BattleRoyale/ViewControllers/BattleViewController.swift:128-137 | One tap keeps the invariant. The count stays within 0..10, reloading only happens on an empty magazine, exactly one timer is pending while reloading (none otherwise), and the label shows the count. So no second reload is ever scheduled. |
| `Battle.Reloaded` | BattleRoyale/ViewControllers/BattleViewController.swift:139-141 | When the reload timer fires, the result is a full magazine of `initialBulletCount` (10), not reloading, no timer pending, label showing 10, with the invariant kept. |
| `Battle.Shots` | BattleRoyale/ViewControllers/BattleViewController.swift:124-137 | Any number of consecutive taps keeps the invariant `0 <= bulletCount <= initialBulletCount`, along with the rest of the invariant. |
| `Battle.ShotsCountDown` | BattleRoyale/ViewControllers/BattleViewController.swift:130-132 | Outside a reload, with at least `n` bullets, `n` taps take exactly `n` bullets. The label follows the count and no reload starts. |
| `Battle.ShotsWhileReloading` | BattleRoyale/ViewControllers/BattleViewController.swift:129 | While reloading, any number of taps changes nothing: count, flag and label are untouched, and the one pending timer stays the only one (the state is `Consistent`, so exactly one timer is pending while reloading). |
| `Battle.ReloadCycle` | BattleRoyale/ViewControllers/BattleViewController.swift:130-141 | From any count outside a reload, emptying the magazine and tapping once more enters reloading with exactly one timer pending at count 0. Its completion restores the full magazine. |
| `Battle.MagazineCycle` | BattleRoyale/ViewControllers/BattleViewController.swift:130-135 | Starting full and not reloading, taps 1 to 10 each fire a bullet, leaving `10 - n`. Tap 11, and every tap after it until the timer fires, leaves the controller reloading at 0 with one timer pending. |
| `Battle.BattleController.constructor` | BattleRoyale/ViewControllers/BattleViewController.swift:15-17 | Initially `bulletCount == 10`, `isReloading` is false, no timer is pending and the label shows the count. |
| `Battle.BattleController.UpdateBulletCountLabel` | BattleRoyale/ViewControllers/BattleViewController.swift:120-122 | The label shows `bulletCount`, and only the label changes. |
| `Battle.BattleController.Shoot` | BattleRoyale/ViewControllers/BattleViewController.swift:128-137 | While reloading, nothing changes. Otherwise, with bullets left, the count drops by exactly 1, the label follows and no reload starts. With none left, the controller starts reloading at count 0 with exactly one timer scheduled. The invariant is kept and the new state is `Shot` of the old one. |
| `Battle.BattleController.ReloadComplete` | BattleRoyale/ViewControllers/BattleViewController.swift:137-142 | Sets `bulletCount` to 10, updates the label, clears `isReloading` and consumes the pending timer. The invariant is kept. |
| `Guns.Gun.constructor` | BattleRoyale/Models/Guns.swift:21-30 | `name`, `description`, `image`, `reloadTime`, `magazineSize`, `isSemiAuto` and `damagePerShot` equal the arguments, and `ammoCount == magazineSize`. |
| `Udp.Configured` | BattleRoyale/Services/UDPCommunication.swift:25-30 | After configuration, `peerHost`/`peerPort` equal the arguments and a connection to that endpoint is installed. It differs from any previous connection, nothing has ever been sent on it, and the sent log is unchanged. |
| `Udp.Sent` | BattleRoyale/Services/UDPCommunication.swift:34-41 | Without a connection the sent log is unchanged. With one, exactly that message is handed to the current connection and nothing else. Peer and connection are unchanged. |
| `Udp.SendAll` | BattleRoyale/Services/UDPCommunication.swift:34-41 | Any sequence of sends keeps the peer invariant and leaves the connection as it was. |
| `Udp.SendAllUnconfigured` | BattleRoyale/Services/UDPCommunication.swift:35-38 | With no connection configured, any number of sends transmits nothing: the whole state is unchanged. |
| `Udp.SendAllConfigured` | BattleRoyale/Services/UDPCommunication.swift:40-41 | With a connection configured, each message is handed to it exactly once, in order. The earlier log is kept and nothing else is added. |
| `Udp.LastConfigurationWins` | BattleRoyale/Services/UDPCommunication.swift:29 | After two `configurePeer` calls, every later message goes to the second connection, to the second host and port. None goes to the first. |
| `Udp.FirstWifiAddress` | BattleRoyale/Services/UDPCommunication.swift:92-111 | The result is nil exactly when no interface is AF_INET and named `en0`. Otherwise it is the address of such an interface that has no match before it in the list. |
| `Udp.FirstWifiAddressAt` | BattleRoyale/Services/UDPCommunication.swift:93-110 | Conversely, when the interface at position `k` is the first match, its address is the result. |
| `Udp.UdpCommunication.constructor` | BattleRoyale/Services/UDPCommunication.swift:19-22 | The service keeps its receive port and starts with no connection, no peer and an empty sent log. |
| `Udp.UdpCommunication.ConfigurePeer` | BattleRoyale/Services/UDPCommunication.swift:25-31 | Overwrites `peerHost` and `peerPort` and replaces the connection with a newly created one to that endpoint. The new state is `Configured` of the old one. |
| `Udp.UdpCommunication.Send` | BattleRoyale/Services/UDPCommunication.swift:34-48 | A no-op without a connection. Otherwise it appends exactly one datagram, carrying the message, addressed to the current connection. The new state is `Sent` of the old one. |
| `Udp.UdpCommunication.LocalIPAddress` | BattleRoyale/Services/UDPCommunication.swift:87-117 | Returns nil when the interface query fails. Otherwise the loop returns the address of the first interface, in list order, that is AF_INET and named `en0`, or nil when none is. |

## Left out

- Camera capture, the preview layer, the overlay, the crosshair and the label layout: AVFoundation and UIKit plumbing with no state of interest.
- The time before the view loads: the controller is modelled from the point where `setupBulletCountLabel` has run. Before that the label does not exist and the tap recogniser is not installed, so `shoot()` cannot be called.
- The five-second delay and the main dispatch queue: the timer is the separate `ReloadComplete` event, with no clock.
- `Battle.BattleController.ReloadComplete`: the `[weak self]` guard is not modelled. If the controller has been deallocated, the closure does nothing; the model has no object lifetimes.
- `print` output in `shoot()`, `send` and the receive path: diagnostics only.
- `handleTap`: it only calls `shoot()`.
- `NWListener`/`NWConnection` setup, `start(queue:)`, the send-completion handler, the receive callback and its re-arming: network I/O and callback scheduling. Received text is only printed, so there is no decoding to model.
- The UTF-8 encoding of a sent message (`message.data(using: .utf8)!`): the sent log holds the message as a string.
- The force-unwrapped port constructors: library behaviour that cannot be seen. Ports are plain 16-bit values.
- The release of the previous connection object when `configurePeer` overwrites it: the model only records that the new connection replaces it.
- `getifaddrs`/`getnameinfo`/`freeifaddrs` pointer handling: foreign C calls. The query result is a parameter, `None` when `getifaddrs` fails. Each interface carries the numeric host text that `getnameinfo` writes, which is empty when that call fails, because its return value is not checked.
- Floating-point arithmetic on `reloadTime` and `damagePerShot`, and image loading: these are opaque values.
- The gun catalogue services, the table views and cells, buttons, extensions, navigation and the multipeer delegate wrapper: UI, static data, or framework glue with no logic of their own.
