# Scan route of a website vulnerability scanner

This project models the scan engine of a small Next.js vulnerability
scanner: the `POST` handler of `app/api/scan/route.ts` and its helper
`scanPort`. The handler takes a target `url`. It rejects a falsy one with
400 "URL is required". Otherwise it builds a report from five sections that
run in order:

- TLS certificate expiry (`sslValid`);
- a reflected-XSS payload echo (`xssVulnerable`);
- SQL error keywords in a response body (`sqlInjectionVulnerable`);
- two security response headers (`missingHeaders`);
- TCP reachability of ports 80 and 443 (`openPorts`).

Each section starts from the report's all-negative default and keeps that
default when its request throws.

The network is replaced by what it was observed to return (`Observations`):

- one `Probe` outcome per HTTP request, either `Failed` or `Ok(data)`;
- the clock reading taken by the TLS comparison;
- one socket event trace per configured port.

`POST` is then a pure function, `ScanRoute.Post`. `scanPort` is a one-shot
state machine over its trace. The Promise settles on the first of connect,
timeout or error. Later handlers still run, but they cannot change the
result.

Files:

- `outcomes.dfy`: the optional request field and probe outcomes.
- `text.dfy`: `String.prototype.includes`, proved equal to "is a substring".
- `port_probe.dfy`: `scanPort` (settlement and `destroy()` bookkeeping).
- `scan_route.dfy`: the report, the five sections and `Post`.
- `section_order.dfy`: the sections commute, so any order gives the same report.

Behaviour of the code worth knowing when reading the model:

- The handler only tests `url` for truthiness; it does not parse it as a URL.
- The `error` handler of `scanPort` calls nothing besides `resolve`; only the
  `connect` and `timeout` handlers call `destroy()`
  (`PortProbe.ErrorsNeverCallDestroy`).
- The HTTP client rejects non-2xx responses, so a response body is inspected
  only when the response is 2xx; any other status is a `Failed` outcome.
- The port loop's `catch` cannot be reached: `scanPort` never rejects,
  because DNS and connect failures arrive as `error` events that resolve the
  Promise with "closed". So every configured port gets exactly one entry.

## Model

| member | source | states |
|---|---|---|
| ScanRoute.Post | app/api/scan/route.ts:15-83 | A 400 "URL is required" response exactly when `url` is missing or empty. Otherwise: `sslValid` iff the TLS probe succeeded with a valid date strictly after `now`; `xssVulnerable` iff the body contains the literal payload; `sqlInjectionVulnerable` iff the body contains "SQL error" or "database"; `missingHeaders` is an order-preserving subsequence of the two messages, with each present iff the probe succeeded and that header is absent or empty; `openPorts` has one entry per configured port, in configured order, "open" iff that probe's first event is connect |
| ScanRoute.MissingHeaderList | app/api/scan/route.ts:59-66 | The list is one of `[]`, `[CSP]`, `[HSTS]`, `[CSP, HSTS]`; each message is present iff its lower-case header is absent or maps to the empty string |
| ScanRoute.PortEntries | app/api/scan/route.ts:72-80 | One entry per port, in the order of the port list; entry `i` carries port `i` and the status decided by the first event of trace `i` |
| ScanRoute.RouteOrderFields | app/api/scan/route.ts:22-80 | Running the five sections in source order from the all-negative report gives each field from its own probe alone, with the default where that probe failed |
| ScanRoute.MissingUrlConsultsNoProbe | app/api/scan/route.ts:16-20 | For a falsy `url` the response is the same 400 error whatever every probe would have observed |
| ScanRoute.FailedProbeChangesOnlyItsField | app/api/scan/route.ts:30-69 | Making one HTTP probe fail changes the report only in that probe's field, which takes its default (`false` or `[]`) |
| ScanRoute.LaterPortEventsIgnored | app/api/scan/route.ts:73-105 | Appending events to any port's trace after its first event leaves the whole response unchanged |
| ScanRoute.EscapedPayloadNotFlagged | app/api/scan/route.ts:41-44 | Any successful body without a `<` character, such as one that HTML-escapes the payload (`&lt;script&gt;…`), gives `xssVulnerable = false` |
| ScanRoute.EchoedPayloadFlagged | app/api/scan/route.ts:41-44 | A body containing the payload verbatim, anywhere, gives `xssVulnerable = true` |
| ScanRoute.HeaderExamples | app/api/scan/route.ts:59-66 | No headers give both messages in CSP-then-HSTS order; both headers non-empty give `[]`; an empty CSP value counts as missing |
| ScanRoute.PortExample | app/api/scan/route.ts:72-80 | Port 80 connecting and port 443 erroring give `[{80, "open"}, {443, "closed"}]` |
| Text.IncludesIffOccurs | app/api/scan/route.ts:44-53 | The left-to-right `includes` scan is true iff the needle occurs as a contiguous substring at some index |
| Text.FirstCharAbsent | app/api/scan/route.ts:41-44 | A non-empty needle whose first character never appears in the body does not occur in it |
| PortProbe.StatusText | app/api/scan/route.ts:90-102 | The resolved string is always "open" or "closed", and "open" exactly for the connect outcome |
| PortProbe.SettledIsFinal | app/api/scan/route.ts:86-102 | Once the Promise is settled, no further event changes it |
| PortProbe.FirstEventWins | app/api/scan/route.ts:86-102 | With no event the Promise is pending; otherwise it holds "open" if the first event is connect and "closed" if it is timeout or error |
| PortProbe.LaterEventsIgnored | app/api/scan/route.ts:86-102 | Events appended after a non-empty trace do not change the result |
| PortProbe.SettlesOnce | app/api/scan/route.ts:86-102 | The Promise is pending before any event and holds one and the same settled value after every non-empty prefix of the trace |
| PortProbe.DestroyCalledIff | app/api/scan/route.ts:90-102 | A handler has called `destroy()` iff a connect or timeout event fired |
| PortProbe.ErrorsNeverCallDestroy | app/api/scan/route.ts:100-102 | A probe that only sees errors settles "closed" and no handler calls `destroy()` |
| SectionOrder.RunSectionFieldwise | app/api/scan/route.ts:30-80 | A section updates only its own field and copies the other four |
| SectionOrder.SectionsFieldwise | app/api/scan/route.ts:30-80 | After any run of distinct sections, a field is updated iff its section was in the run, and then by its own rule applied to its previous value |
| SectionOrder.OrderIndependent | app/api/scan/route.ts:30-80 | Every permutation of the five sections produces the same report as the source order |

## Left out

- Networking (`axios.get`, `getPeerCertificate`, `net.Socket`, DNS, the 2000 ms socket timeout) is foreign I/O. Each request is an abstract `Probe` outcome, and each socket is an event trace.
- The idle timeout's guarantee that every socket emits some event is a precondition (`AllSettle`). A trace with no event would leave the handler waiting forever, and that case is not modelled as a response.
- Date parsing (`new Date(certificate.valid_to)`) and the wall clock are left out. The expiry is an integer millisecond instant or `InvalidDate`, and `now` is an integer input.
- The request URLs (`${url}?test=${encodeURIComponent(payload)}`) and the SQL payload `' OR '1'='1` are left out. They only shape a request whose outcome is already an input, and the encoder cannot be seen.
- Passing the whole URL as the host to `socket.connect` is left out. Its only effect is which events a trace holds, usually a lone error.
- Response bodies are strings. A body the HTTP client parsed as JSON makes `.includes` throw or behave as `Array.prototype.includes`, which is not modelled; a throw is the same as a `Failed` outcome.
- Header values are strings in a map keyed by lower-case name, as the HTTP client presents them. Array-valued headers are not modelled.
- A `url` field holding a JSON value other than a string is not modelled; only absent, empty and non-empty strings are.
- Request bodies that are not JSON, or are the JSON `null`, are left out. There `req.json()` rejects or the destructuring of `url` throws, the error escapes the handler, and the framework answers with a server error rather than 400. A JSON primitive body leaves `url` undefined, which the model covers as an absent field.
- `console.error` logging and `NextResponse.json` serialisation are left out.
- `components/ScanForm.tsx`, `app/utils/reportGenetor.tsx` and `app/home/page.tsx` are presentation code (React state, jsPDF layout, page markup) and are not part of this model.
