# stereo_image_proc: the disparity-to-geometry core

This project models the core of `stereo_image_proc`'s `StereoProcessor` and proves properties of that model.

`process` takes the caller's request bits and expands them with their dependencies. It then runs the monocular stage for the left camera and for the right camera. When both succeed, it runs the stages the request selects:

- **Disparity normalisation** turns the block matcher's signed 16-bit fixed-point grid into a float disparity image and fills in the stereo metadata.
- **Sparse cloud builder** (`processPoints`) appends the valid cells of the projected point grid, in row-major order, to a `PointCloud`. The point list has parallel channels "u" and "v". A second pass fills the "rgb" channel with packed colours.
- **Structured cloud builder** (`processPoints2`) writes one 16-byte record per grid cell into a `PointCloud2` buffer. Each record holds fields x, y, z and rgb. An invalid cell gets NaN in x, y and z, and in rgb when the encoding is MONO8, RGB8 or BGR8.

Modules:

- `RequestFlags`: the request bits.
- `Geometry`: float and depth values, points, the 4-byte words of a buffer, row-major grids and `isValidPoint`.
- `Raster`: the row-major scan of valid cells and its count.
- `ColorPacking`: the MONO8/RGB8/BGR8 packing.
- `DisparityNormalizer`, `SparseCloud`, `StructuredCloud`: the three stages.
- `StereoProcessor`: `process` itself.

The output messages are classes whose vectors are `seq` fields. The methods that fill them are proved against predicates that describe the whole new state. The lemmas then derive what the code promises from those predicates.

Inputs the model takes as given:

- **Block matcher output:** the raw `int16` grid.
- **Projection:** `projectDisparityImageTo3d` is replaced by a dense grid of points.
- **Colour image:** the left rectified colour image, a grid of pixels.
- **Monocular stage:** a function from a camera and its flags to success.

For an unrecognised encoding, `processPoints2` writes nothing into the rgb words (processor.cpp:339-341), so they keep whatever the resized buffer held. A depth of NaN counts as valid, because a NaN is neither `MISSING_Z` nor infinite.

## Model

| member | source | states |
|---|---|---|
| RequestFlags.RequestsAreDistinctBits | stereo_image_proc/include/stereo_image_proc/processor.h:95-106 | The eleven request constants are exactly `1 << k` for k = 0..10, and no two of them share a bit. |
| RequestFlags.GroupsPartitionAll | stereo_image_proc/include/stereo_image_proc/processor.h:108-111 | LEFT_ALL, RIGHT_ALL and STEREO_ALL are pairwise disjoint. The camera groups fill bits 0-7, STEREO_ALL is bits 8-10, and ALL is bits 0-10. |
| RequestFlags.RightShiftsToLeft | stereo_image_proc/include/stereo_image_proc/processor.h:96-109 | RIGHT_ALL >> 4 == LEFT_ALL, and each RIGHT_x >> 4 == LEFT_x. |
| RequestFlags.CameraMasks | stereo_image_proc/include/stereo_image_proc/processor.h:96-111 | `flags & LEFT_ALL` and `flags & RIGHT_ALL` carry no stereo bit. The shifted right-camera bits hold only left-camera bits, and hold left request k exactly when the caller set right request k. |
| StereoProcessor.ExpansionRules | stereo_image_proc/src/libstereo_image_proc/processor.cpp:60-71 | The left and right flags hold only their own camera's bits, and every camera bit the caller set is kept. A stereo request adds LEFT_RECT and RIGHT_RECT, and a cloud request adds LEFT_RECT_COLOR. Nothing else is added, and each added camera bit is explained by a stereo or cloud request. |
| StereoProcessor.StageSelection | stereo_image_proc/src/libstereo_image_proc/processor.cpp:60-71 | A cloud request adds DISPARITY to the flags, and no other flag bit changes. So DISPARITY ends up set exactly when some stereo bit was requested, and POINT_CLOUD and POINT_CLOUD2 are set exactly when the caller set them. |
| StereoProcessor.OnlyPointCloud2Example | stereo_image_proc/src/libstereo_image_proc/processor.cpp:60-74 | Requesting POINT_CLOUD2 alone expands to LEFT_RECT, LEFT_RECT_COLOR, RIGHT_RECT and DISPARITY. The right stage gets LEFT_RECT. |
| StereoProcessor.ExpandFlags | stereo_image_proc/src/libstereo_image_proc/processor.cpp:60-71 | The `|=` steps compute exactly the expansion: left_flags, right_flags and the updated flags. |
| StereoProcessor.PlanShortCircuits | stereo_image_proc/src/libstereo_image_proc/processor.cpp:72-75 | The left monocular stage runs first with left_flags. If it fails, nothing else runs. Otherwise the right stage runs next with right_flags >> 4, which holds only left-camera bits. If either fails, no stereo stage runs. Stages never repeat or run out of order. |
| StereoProcessor.PlanRunsRequestedStages | stereo_image_proc/src/libstereo_image_proc/processor.cpp:78-91 | Once both monocular stages succeed, the disparity stage runs iff some STEREO_ALL bit was requested. The sparse builder runs iff POINT_CLOUD was requested, and the structured builder iff POINT_CLOUD2 was. |
| StereoProcessor.Process | stereo_image_proc/src/libstereo_image_proc/processor.cpp:54-93 | The stages invoked are exactly the plan. The result is true iff both monocular stages succeed. Each requested output is fully built (normalised disparity image, sparse cloud, structured cloud). Every output not run is unchanged. |
| StereoProcessor.StereoStagesRun | stereo_image_proc/src/libstereo_image_proc/processor.cpp:77-90 | Each stereo stage runs exactly when its bit is in the expanded flags, in order. An output that runs is fully built; one that does not is unchanged. |
| StereoProcessor.CloudsAgree | stereo_image_proc/src/libstereo_image_proc/processor.cpp:183-338 | Sparse point k, at channel coordinates (u, v), is the cell of structured record u*width+v. That record holds the same x, y and z and, for a recognised encoding, the same packed colour. |
| StereoProcessor.ValidCellListed | stereo_image_proc/src/libstereo_image_proc/processor.cpp:183-197 | Every valid cell i of the grid is some point of the sparse cloud, at coordinates (i / width, i % width). |
| DisparityNormalizer.ToDisparity | stereo_image_proc/src/libstereo_image_proc/processor.cpp:138-140 | A pixel is `raw * inv_dpp - (cx_l - cx_r)`. Adding the offset back and multiplying by DPP returns the raw value. |
| DisparityNormalizer.ToDisparityMonotone | stereo_image_proc/src/libstereo_image_proc/processor.cpp:140 | The conversion preserves the order of raw values. |
| DisparityNormalizer.FixedPointExample | stereo_image_proc/src/libstereo_image_proc/processor.cpp:99-110 | With the CPU matcher (DPP 16) and aligned principal points, raw 160, 0, -1 and 320 become 10, 0, -0.0625 and 20. |
| DisparityNormalizer.ProcessDisparity | stereo_image_proc/src/libstereo_image_proc/processor.cpp:95-154 | The image has the raw grid's height and width, encoding 32FC1, step == width*4 and a buffer of step*height bytes. Every pixel is the converted raw value. Also f == right fx, T == baseline, min/max disparity == 0/63 and delta_d == inv_dpp. |
| Geometry.IsValidPoint | stereo_image_proc/src/libstereo_image_proc/processor.cpp:156-161 | A point is valid iff its depth is neither MISSING_Z nor infinite. A metric depth and NaN both count as valid. |
| Geometry.ValidityIgnoresXY | stereo_image_proc/src/libstereo_image_proc/processor.cpp:156-161 | Validity depends on z alone: points with the same z are both valid or both invalid. |
| Geometry.DepthWord | stereo_image_proc/src/libstereo_image_proc/processor.cpp:284 | The z word written for a valid point is NaN iff its depth is NaN. |
| Raster.ValidPixelsExact | stereo_image_proc/src/libstereo_image_proc/processor.cpp:183-185 | The scan lists only valid cells and lists every valid cell, in strictly increasing row-major order. |
| Raster.ValidPixelsCount | stereo_image_proc/src/libstereo_image_proc/processor.cpp:183-185 | The scan's length is the number of valid cells of the grid. |
| Raster.SameValidity | stereo_image_proc/src/libstereo_image_proc/processor.cpp:278-280 | Flat index i is row i / width, column i % width, inside the grid. That cell is listed by the scan iff it is valid. |
| Raster.ScanStep | stereo_image_proc/src/libstereo_image_proc/processor.cpp:184-185 | Visiting cell (u, v) extends the scan by exactly that cell when it is valid, and leaves it unchanged otherwise. |
| Raster.ScanSound | stereo_image_proc/src/libstereo_image_proc/processor.cpp:183-185 | Every pixel the scan of the first m rows keeps is a valid cell. |
| Raster.ScanComplete | stereo_image_proc/src/libstereo_image_proc/processor.cpp:183-185 | Every valid cell of the first m rows is kept by the scan. |
| Raster.ScanOrdered | stereo_image_proc/src/libstereo_image_proc/processor.cpp:183-184 | The kept pixels of the first m rows are in strictly increasing row-major order. |
| ColorPacking.Pack | stereo_image_proc/src/libstereo_image_proc/processor.cpp:206-229 | The packed colour of each encoding is below 2^24, and its bytes 2, 1, 0 are the pixel's red, green and blue (g, g, g for MONO8; b and r swapped for BGR8). |
| ColorPacking.UnpackInjective | stereo_image_proc/src/libstereo_image_proc/processor.cpp:207-218 | A 24-bit packed value is determined by its three bytes. |
| ColorPacking.PackDependsOnColourOnly | stereo_image_proc/src/libstereo_image_proc/processor.cpp:217-229 | Pixels that show the same colour pack to the same value across encodings. For example, BGR8 (b, g, r) packs like RGB8 (r, g, b). |
| ColorPacking.PackInjective | stereo_image_proc/src/libstereo_image_proc/processor.cpp:206-229 | Within one encoding, the packed value gives the pixel back. |
| ColorPacking.Combine | stereo_image_proc/src/libstereo_image_proc/processor.cpp:207 | `(r << 16) \| (g << 8) \| b` is below 2^24 and unpacks to (r, g, b). |
| ColorPacking.PixelFits | stereo_image_proc/src/libstereo_image_proc/processor.cpp:206 | A colour image of the grid's size, with this encoding, has a pixel of the encoding's width at every (u, v). |
| SparseCloud.ProcessPoints | stereo_image_proc/src/libstereo_image_proc/processor.cpp:163-238 | The previous contents are discarded. There are three channels named rgb, u, v. The points and channels u and v list exactly the valid cells in row-major order, with their row and column. Channel rgb holds each point's packed colour for MONO8/RGB8/BGR8 and is empty otherwise. The warning is issued iff the encoding is unrecognised. |
| SparseCloud.PushBack | stereo_image_proc/src/libstereo_image_proc/processor.cpp:193-194 | `channels[c].values.push_back(w)` appends w to channel c, keeps its name, and leaves the other channels as they were. |
| SparseCloud.ListingAppend | stereo_image_proc/src/libstereo_image_proc/processor.cpp:185-194 | Pushing cell (u, v) and its row and column extends the listing of points and channels u, v by that pixel. |
| SparseCloud.ColorListAppend | stereo_image_proc/src/libstereo_image_proc/processor.cpp:205-208 | Pushing a pixel's packed colour extends the rgb list by that pixel. |
| SparseCloud.FillColor | stereo_image_proc/src/libstereo_image_proc/processor.cpp:202-234 | A colour loop leaves the points and channels u, v as they were, and fills rgb with the packed colour of every listed point, in order. |
| SparseCloud.FillColorRow | stereo_image_proc/src/libstereo_image_proc/processor.cpp:204-210 | One row of a colour loop appends the colours of that row's valid cells and leaves channels u and v as they were. |
| SparseCloud.SparseCloudShape | stereo_image_proc/src/libstereo_image_proc/processor.cpp:174-237 | The point count equals the number of valid cells, and channels u and v are as long as the point list. The rgb length is the point count for a recognised encoding and 0 otherwise. Every point is valid, and the (u, v) channel values rise strictly in row-major order. |
| StructuredCloud.FieldsTileRecord | stereo_image_proc/src/libstereo_image_proc/processor.cpp:253-271 | The four fields sit at offsets 0, 4, 8 and 12 with count 1 and type FLOAT32. Together they exactly tile the 16-byte record. |
| StructuredCloud.WordIndex | stereo_image_proc/src/libstereo_image_proc/processor.cpp:282-289 | The write at `i * point_step + offset` lies inside record i's 16 bytes. It is that record's word offset / 4. |
| StructuredCloud.Resize | stereo_image_proc/src/libstereo_image_proc/processor.cpp:273 | The resized buffer has the requested length, keeps the old prefix and is zero beyond it. |
| StructuredCloud.BufferWords | stereo_image_proc/src/libstereo_image_proc/processor.cpp:271-273 | row_step * height bytes are exactly four words per cell. |
| StructuredCloud.ProcessPoints2 | stereo_image_proc/src/libstereo_image_proc/processor.cpp:240-342 | Height and width are the grid's, with the four fields, point_step 16, row_step 16*width, a buffer of row_step*height bytes and is_dense false. Record u*width+v holds the cell's x, y, z, or NaN for an invalid cell. Its rgb word holds the packed colour, or NaN when invalid, for a recognised encoding. Otherwise the rgb word is the resized old buffer's word, and the warning is issued exactly then. |
| StructuredCloud.FillCoordinates | stereo_image_proc/src/libstereo_image_proc/processor.cpp:277-292 | The first pass writes x, y, z of every record (with the counter i == u*width+v) and leaves every rgb word unchanged. |
| StructuredCloud.FillColor | stereo_image_proc/src/libstereo_image_proc/processor.cpp:296-338 | The colour pass writes only the rgb words: the packed colour of a valid cell, else NaN. |
| StructuredCloud.FirstPassStep | stereo_image_proc/src/libstereo_image_proc/processor.cpp:280-290 | Writing record i's three coordinate words advances the first pass by one record and keeps every rgb word. |
| StructuredCloud.FillCoordinatesRow | stereo_image_proc/src/libstereo_image_proc/processor.cpp:279-291 | One row of the first pass writes that row's x, y, z words and advances the counter i by the width. |
| StructuredCloud.ColorPassStep | stereo_image_proc/src/libstereo_image_proc/processor.cpp:300-307 | Writing record i's rgb word advances a colour pass by one record and keeps every coordinate word. |
| StructuredCloud.FillColorRow | stereo_image_proc/src/libstereo_image_proc/processor.cpp:299-308 | One row of a colour pass writes that row's rgb words and advances the counter i by the width. |
| StructuredCloud.RecordContents | stereo_image_proc/src/libstereo_image_proc/processor.cpp:278-338 | A valid cell's record holds its x, y and z. An invalid cell's record holds NaN in x, y and z, and in rgb too when the encoding is recognised. |
| StructuredCloud.UnknownEncodingKeepsRgb | stereo_image_proc/src/libstereo_image_proc/processor.cpp:339-341 | With an unrecognised encoding, each rgb word is what the old buffer held at that position, or zero where the resize grew the buffer. |

## Left out

- The block matcher and its CPU/CUDA and OpenCV-version variants, the matcher objects, and the getters and setters are not modelled. They are calls into OpenCV. The raw fixed-point grid is an input, and the matcher kind fixes only DPP (16 or 1).
- `projectDisparityImageTo3d` is not modelled; it is image_geometry math outside this repository. The projected grid of points is an input. `MISSING_Z` is an abstract depth value, because its number is not part of this model.
- The monocular stage (`mono_processor_.process`) and the camera image sets it fills are not modelled. The stage is a function from a camera and its flags to success. The colour image and its encoding are inputs.
- Floating point is not modelled as IEEE-754 arithmetic. Disparity values are reals: convertTo's rounding to float and its saturation are not modelled. The sparse channels u and v hold the integer coordinates exactly.
- Byte order, `is_bigendian` and memcpy are not modelled byte by byte. The structured buffer is a sequence of 4-byte words, and a colour is stored as its 32-bit pattern, which is the effect of the float bit-cast. The buffer is taken to be a whole number of words before and after the resize.
- `std::vector::resize` is modelled by its effect on the contents. Reallocation and buffer identity are not modelled.
- ROS_WARN is the returned `warned` flag. ROS_ASSERT and the function-local statics `DPP`/`inv_dpp` are not modelled.
- StructuredCloud.ProcessPoints2: does not model the overflow of the C `int` expression `i * point_step` (processor.cpp:282-331) or the wrap-around of the uint32 product `row_step * height` (processor.cpp:273) on very large grids, because integers here are unbounded.
- DisparityNormalizer.ProcessDisparity: does not model the wrap-around of the uint32 product `step * height` (processor.cpp:136) on very large images, because integers here are unbounded.
- SparseCloud.ProcessPoints, StructuredCloud.ProcessPoints2 and StereoProcessor.Process: require the colour image to have exactly the grid's rows and columns and the encoding's channel count (`ColorFits`). The code never checks this, and `color.at` (processor.cpp:206, 217, 228, 301, 315, 329) would also accept a larger image. The caller passes the rectified colour image, which has the grid's size.
- The mutable scratch members and thread reuse are not modelled; there is no concurrency here.
