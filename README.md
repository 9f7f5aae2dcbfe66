# Veri5ied client core in Dafny

This project models the self-contained logic of the Veri5ied front end, a web
application that checks pharmaceutical products against a Kaleido blockchain
gateway and stores product images on IPFS. It covers three pieces:

- **Blockchain gateway client** (`kaleido.dfy`): `addProductToBlockchain` and
  `getProductFromBlockchain`. For each call the model gives the request it builds
  (path, JSON body, query parameters), the value it returns and the exact message
  of every error it throws. The HTTP transport is an input: a function `send` from
  requests to replies. A reply is either `Ok(status, data)` or a rejection carrying
  one of three thrown values:
  - an axios error with a response, with no response, or from request setup;
  - a plain `Error`;
  - a value that is not an `Error`.

  Each function is modelled as its `try` block and its `catch` handler, composed
  by `Js.TryCatch`. An error thrown inside the `try` block therefore goes through
  the function's own `catch` again. `JSON.stringify` is the parameter `stringify`.
- **IPFS client** (`ipfs.dfy`): `uploadToIPFS` (hash extraction and error
  classification, built the same way) and `getIPFSImageUrl` (the URL template),
  with an inverse that reads the hash back out of a URL.
- **SlideDown component** (`slidedown.dfy`): the open/close state machine of
  `SlideDownContent`. This covers its React state `(children, childrenLeaving)`,
  the props `closed`, `transitionOnAppear` and `className`, and the outer DOM
  element's classes, inline height and `transition-property`. Each lifecycle step
  has a pure specification on values (`…Effect`). The classes `Element` and
  `SlideDownContent` implement the steps as methods that update fields, and are
  proved against those specifications. The class invariant has three parts:
  - leaving content is present;
  - the state is a fixed point of `getDerivedStateFromProps` for the current props;
  - the `transitioning` class and `transition-property: height` go together.

Supporting modules: `text.dfy` holds prefix, suffix and infix predicates and the
decimal rendering of a status number. `js.dfy` holds JSON values, truthiness,
`typeof`, property reads, thrown values, completions and `try`/`catch`.
`http.dfy` holds requests and replies.

Behaviour worth noting, as the code has it:
- `getIPFSImageUrl("")` is `base + "/ipfs/?dl=1"`. There is no "no image" sentinel.
- `getProductFromBlockchain` accepts any `output` object whose `batchNumber` is
  truthy. A numeric batch number passes too; the cast to `Product` checks nothing.
  For string batch numbers this is exactly "non-empty" (`StringBatchNumberFound`).
- A timeout is an axios error without a response. `addProductToBlockchain` reports
  it as "No response received from the server", without saying it was a timeout.
- A successful reply with a status other than 200 is reported with the prefix
  "Failed to add product to blockchain: " twice. The same doubling happens to the
  IPFS "No hash returned" error.

## Model

| member | source | states |
|---|---|---|
| Text.NatToString | src/lib/kaleido.ts:70 | the text of an interpolated status is a non-empty run of decimal digits, with no leading zero unless the status is 0 |
| Text.ParseNatToString | src/lib/kaleido.ts:70 | reading the digits back gives the status, so the rendering loses nothing |
| Text.NatToStringInjective | src/lib/kaleido.ts:83 | distinct statuses render as distinct decimal texts |
| Js.TruthyIsNotEmptyString | src/lib/kaleido.ts:119 | once `batchNumber` is truthy, the extra `!== ""` test cannot fail |
| Kaleido.AddProductRequest | src/lib/kaleido.ts:48-63 | posts to `"/" + contract + "/addProduct"`; the body is an object with exactly the six product keys and decodes back to exactly the six product fields; the params are `kld-from` = sender and `kld-sync` = "true", with no `kld-call` |
| Kaleido.AddProductTry | src/lib/kaleido.ts:66-74 | the `try` block completes normally exactly on a 200, with the batch number; a rejection passes through unchanged; another status throws a plain `Error` with the prefix (full behaviour: `AddProductNon200`, `AddProductRejected`) |
| Kaleido.AddProductCatch | src/lib/kaleido.ts:75-96 | every caught value is rethrown as a plain `Error` whose message starts with "Failed to add product to blockchain: " |
| Kaleido.AddProduct | src/lib/kaleido.ts:30-97 | succeeds if and only if the reply is a 200, and then returns the batch number it was given; every failure is a plain `Error` with the function's prefix |
| Kaleido.AddProductNon200 | src/lib/kaleido.ts:68-94 | a reply with a status other than 200 fails with the prefix twice, then `<status> <json body>` |
| Kaleido.AddProductRejected | src/lib/kaleido.ts:77-95 | an axios error with a response gives `<status> <json body>`; one without a response gives "No response received from the server"; any other axios error gives its message; a plain `Error` gives its message; a non-`Error` gives "Unknown error"; all after one prefix |
| Kaleido.GetProductRequest | src/lib/kaleido.ts:101-113 | posts to `"/" + contract + "/getProduct"` with body `{batchNumber: productId}` and params `kld-from`, `kld-sync` = "true", `kld-call` = "true" |
| Kaleido.DecodeOutput | src/lib/kaleido.ts:117-125 | yields `data.output` exactly when it is an object with a truthy `batchNumber`; every other reply body yields `null` |
| Kaleido.GetProductTry | src/lib/kaleido.ts:115-125 | the `try` block completes normally exactly when the promise is fulfilled, with what the validator makes of the body; a rejection passes through unchanged |
| Kaleido.GetProductCatch | src/lib/kaleido.ts:126-136 | every caught value is rethrown as a plain `Error` whose message starts with "Failed to get product from blockchain: " |
| Kaleido.GetProduct | src/lib/kaleido.ts:99-138 | never throws when the request's promise is fulfilled, whatever status `Ok` carries; then returns exactly what the validator `DecodeOutput` makes of the reply: its `output` when that is a product record and `null` otherwise; every failure has the function's prefix |
| Kaleido.GetProductRejected | src/lib/kaleido.ts:128-136 | an axios error with a response gives `<status> <json body>`; any other `Error`, including an axios error without a response, gives its message; a non-`Error` gives "Unknown error" |
| Kaleido.StringBatchNumberFound | src/lib/kaleido.ts:117-125 | for a string `batchNumber`, the product is found if and only if the string is non-empty |
| Kaleido.ReadBackAddedProduct | src/lib/kaleido.ts:99-125 | if the gateway echoes the body that `addProductToBlockchain` sent, the read finds it exactly when its batch number is non-empty, with the same six fields |
| Ipfs.UploadRequest | src/lib/ipfs.ts:21-28 | the upload posts a multipart form with part `file` to `/api/v0/add` |
| Ipfs.UploadTry | src/lib/ipfs.ts:30-34 | the `try` block completes normally exactly on a truthy body with a truthy `Hash`, returning it; a rejection passes through unchanged; any other reply throws "Failed to upload file to IPFS: No hash returned" (full behaviour: `UploadWithoutHash`, `UploadRejected`) |
| Ipfs.UploadCatch | src/lib/ipfs.ts:35-54 | every caught value is rethrown as a plain `Error` whose message starts with "Failed to upload file to IPFS: " |
| Ipfs.UploadToIpfs | src/lib/ipfs.ts:19-55 | returns `data.Hash` exactly when the server answers with a truthy body whose `Hash` is truthy; every failure has the function's prefix |
| Ipfs.UploadWithoutHash | src/lib/ipfs.ts:30-50 | a reply without a hash fails with "Failed to upload file to IPFS: " twice, then "No hash returned" |
| Ipfs.UploadRejected | src/lib/ipfs.ts:37-53 | an axios error with a response gives `<status> <json body>`; one without a response gives "No response received"; any other axios error gives its message; a plain `Error` gives its message; a non-`Error` gives "Unknown error" |
| Ipfs.ImageUrl | src/lib/ipfs.ts:57-59 | the URL starts with `base + "/ipfs/" + hash` and ends with "?dl=1", for every hash including the empty one |
| Ipfs.ImageUrlContainsHash | src/lib/ipfs.ts:58 | the URL contains `"/ipfs/" + hash` |
| Ipfs.HashOfImageUrlRoundTrip | src/lib/ipfs.ts:58 | the hash can be read back from the URL |
| Ipfs.ImageUrlOfHash | src/lib/ipfs.ts:58 | every URL the reader accepts is the URL of the hash it returns |
| Ipfs.ImageUrlInjective | src/lib/ipfs.ts:58 | distinct hashes give distinct URLs |
| SlideDown.WithDefaults | src/react-slidedown/lib/slidedown.tsx:19-22 | an absent `closed` is false and an absent `transitionOnAppear` is true |
| SlideDown.ContainerClassName | src/react-slidedown/lib/slidedown.tsx:145-147 | the class is "react-slidedown" exactly when `className` is falsy, and otherwise "react-slidedown " + className |
| SlideDown.DerivedState | src/react-slidedown/lib/slidedown.tsx:65-82 | returns null exactly when neither props nor state hold children; any state it returns holds children |
| SlideDown.DerivedStateSpec | src/react-slidedown/lib/slidedown.tsx:69-81 | new props keep "leaving implies children"; the shown children are the props' when present and the old state's otherwise; leaving holds exactly when the props have no children and the state had some |
| SlideDown.DerivedStateIdempotent | src/react-slidedown/lib/slidedown.tsx:69-81 | deriving again from the same props changes nothing |
| SlideDown.AfterTransitionEnd | src/react-slidedown/lib/slidedown.tsx:129-130 | after a transition ends nothing is leaving; leaving children are dropped and other children kept |
| SlideDown.TransitionEndKeepsSynced | src/react-slidedown/lib/slidedown.tsx:129-130 | dropping the leaving children keeps the state in sync with the props |
| SlideDown.StartTransitionEffect | src/react-slidedown/lib/slidedown.tsx:94-113 | when opening, "closed" is removed; otherwise it is untouched; when the target height differs from the previous one at two decimals, the element is transitioning on `height` towards the target; otherwise the transition fields are untouched; no other class changes; a coherent element stays coherent |
| SlideDown.EndTransitionEffect | src/react-slidedown/lib/slidedown.tsx:115-125 | "transitioning" is removed and `transition-property` is "none"; the height is 0px when closed, else auto; "closed" is added when closed or without children; no other class changes; the result is at rest and coherent |
| SlideDown.MountEffect | src/react-slidedown/lib/slidedown.tsx:48-59 | closed or empty adds "closed" to the existing classes and sets 0px; open without `transitionOnAppear` shows at auto with nothing else changed; open with it starts a transition from 0px: "closed" is removed, no other class changes, and unless the measured height is 0px the element transitions on `height` to it, otherwise it rests at auto with the transition fields untouched; a coherent element stays coherent |
| SlideDown.AppearOpens | src/react-slidedown/lib/slidedown.tsx:48-125 | mounting open with children animates from 0px to the measured height and ends open, at rest, at auto |
| SlideDown.ContentLeaves | src/react-slidedown/lib/slidedown.tsx:65-135 | removing the children while open keeps them leaving, collapses to 0px, then drops them and ends "closed" at auto |
| SlideDown.ClosingCollapses | src/react-slidedown/lib/slidedown.tsx:65-125 | setting `closed` with children collapses to 0px and ends "closed" at 0px |
| SlideDown.Element.constructor | src/react-slidedown/lib/slidedown.tsx:145-152 | a rendered element has its classes, no inline height and no inline transition property |
| SlideDown.Element.AddClass | src/react-slidedown/lib/slidedown.tsx:51 | `classList.add` adds one class and changes nothing else |
| SlideDown.Element.RemoveClass | src/react-slidedown/lib/slidedown.tsx:100 | `classList.remove` removes one class and changes nothing else |
| SlideDown.Element.SetHeight | src/react-slidedown/lib/slidedown.tsx:52 | assigning `style.height` changes only the height |
| SlideDown.Element.SetTransitionProperty | src/react-slidedown/lib/slidedown.tsx:110 | assigning `style.transitionProperty` changes only that property |
| SlideDown.SlideDownContent.constructor | src/react-slidedown/lib/slidedown.tsx:26-33 | the state starts with the props' children, not leaving, with no element attached, and the invariant holds |
| SlideDown.SlideDownContent.AttachRef | src/react-slidedown/lib/slidedown.tsx:35-36 | the ref callback records the element and changes nothing else |
| SlideDown.SlideDownContent.ReceiveProps | src/react-slidedown/lib/slidedown.tsx:65-82 | new props are stored and the derived state merged in, keeping the invariant |
| SlideDown.SlideDownContent.StartTransition | src/react-slidedown/lib/slidedown.tsx:94-113 | with an element attached, the element ends as `StartTransitionEffect` says; without one nothing changes |
| SlideDown.SlideDownContent.EndTransition | src/react-slidedown/lib/slidedown.tsx:115-125 | with an element attached, the element ends as `EndTransitionEffect` says |
| SlideDown.SlideDownContent.ComponentDidMount | src/react-slidedown/lib/slidedown.tsx:48-59 | with an element attached, the element ends as `MountEffect` says |
| SlideDown.SlideDownContent.ComponentDidUpdate | src/react-slidedown/lib/slidedown.tsx:84-92 | starts a transition from the recorded height, or from 0px when none was recorded |
| SlideDown.SlideDownContent.HandleTransitionEnd | src/react-slidedown/lib/slidedown.tsx:127-135 | only the end of the outer element's `height` transition acts; leaving children are then dropped, and the transition ends on the new state |

## Left out

- The axios transport: base URL joining, the `Content-Type` header, the Basic authentication header built with `btoa`, and the 30-second timeout. These are library calls and I/O; the reply to each request is an input instead.
- `JSON.stringify` is the uninterpreted parameter `stringify`.
- Logging (`console.log`, `console.error`) and the start-up check that the configuration variables are set. The contract address, sender address and IPFS base URL are plain string parameters, so an unset variable (which would render as "undefined", or drop `kld-from`) is not modelled.
- The `FormData` contents of an upload: the file's bytes and name are not modelled, only the part name `file`.
- Property reads see only the own properties of JSON objects. Inherited properties and the `length` and index properties of strings and arrays are not modelled; the keys the clients read (`output`, `batchNumber`, `Hash`) are none of these.
- JSON numbers are exact reals. Floating point is not modelled; the clients only test numbers for truthiness.
- Ipfs.UploadToIpfs: returns the `Hash` value as it is, not as a string, because the code returns it unchecked.
- The layout measurements in SlideDown: `getComputedStyle`, `getBoundingClientRect` in `getSnapshotBeforeUpdate`, and the forced reflow through `offsetHeight`. They are DOM calls; the measured height and the snapshot are parameters.
- The `parseFloat(...).toFixed(2)` comparison works on lengths already kept in hundredths of a pixel, so rounding of finer lengths is not modelled.
- SlideDown.StartTransitionEffect: states the element after the step. It does not state the intermediate assignment of `prevHeight`, which only matters to the browser's animation; the method performs it.
- SlideDown.SlideDownContent.AttachRef: requires the attached element to be coherent (its `transitioning` class and `transition-property` agree). A caller `className` that itself contains "transitioning" would render an element outside this invariant; such class names are excluded.
- Http.Reply: with axios's default status check only a 2xx reply fulfils the promise, and every other status arrives as `Rejected(AxiosErr(_, Response(..)))`. `Ok` does not enforce this, so a fulfilled reply with a status other than 200 (`Kaleido.AddProductNon200`) can arise from axios only for 201-299.
- SlideDown.SlideDownContent.HandleTransitionEnd: runs the end of the transition straight after the state update. React runs it as a `setState` callback, after a re-render whose `componentDidUpdate` runs first. That scheduling is not modelled. The derived-state run of that re-render changes nothing (`TransitionEndKeepsSynced`).
- React rendering: `forwardRef`, forwarding the ref in `handleRef`, spreading the remaining props onto the element, and React re-applying `className` on a re-render. Children are modelled only as present or absent. The component treats every falsy value alike, though React would render `0`.
- `generateShortProductID`, which some pages import, is not defined in `src/lib/kaleido.ts` and is not part of this model.
- The pages and components of the application (`src/app`, `src/components`, `next.config.ts`) are UI markup, authentication gating and static configuration.
- Verification and submission workflows (QR scanning, form validation, request-ordering guards, retries) are not in the modelled code.
